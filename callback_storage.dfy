/**
 * The callback registry and the token codec of `CallbackStorage`: a button's
 * payload is the version line, the callback's registration index, then one
 * JSON line per positional argument, joined by "\n".
 */
module CallbackStorage {
  import opened Common
  import opened PyText
  import opened JsonArgs

  /** A `functools.partial`: a callback with its positional and keyword arguments. */
  datatype Partial<F> = Partial(func: F, args: seq<JValue>, keywords: map<string, JValue>)

  /** What a token decodes to: a stored callback with its arguments, or the
      no-op callable handed out for a token of another version. */
  datatype Decoded<F> = Call(func: F, args: seq<JValue>) | NoOp

  /** Every line feed preceded by a backslash. */
  function EscapeNewlines(s: string): (r: string)
    ensures '\n' !in s ==> r == s
  {
    if s == [] then ""
    else (if s[0] == '\n' then "\\\n" else [s[0]]) + EscapeNewlines(s[1..])
  }

  /** Every backslash-line-feed pair turned back into a line feed, scanning
      left to right as `str.replace` does. */
  function UnescapeNewlines(s: string): (r: string)
    ensures '\n' !in s ==> r == s
  {
    if s == [] then ""
    else if |s| >= 2 && s[0] == '\\' && s[1] == '\n' then "\n" + UnescapeNewlines(s[2..])
    else [s[0]] + UnescapeNewlines(s[1..])
  }

  /** The line one positional argument becomes in a token. */
  function ArgLine(a: JValue): string {
    EscapeNewlines(Dumps(a))
  }

  function ArgLines(args: seq<JValue>): (lines: seq<string>)
    ensures |lines| == |args|
    ensures forall i :: 0 <= i < |args| ==> lines[i] == ArgLine(args[i])
  {
    if args == [] then [] else [ArgLine(args[0])] + ArgLines(args[1..])
  }

  /** Each argument line unescaped and read back as JSON, in order; the first
      line that does not parse raises. */
  function LoadArgs(lines: seq<string>): (r: Result<seq<JValue>>)
    ensures r.Ok? ==> |r.value| == |lines|
    ensures r.Ok? <==> forall i :: 0 <= i < |lines| ==> Loads(UnescapeNewlines(lines[i])).Ok?
    ensures r.Ok? ==> forall i :: 0 <= i < |lines| ==> r.value[i] == Loads(UnescapeNewlines(lines[i])).value
    ensures r.Err? ==> r.error == JsonDecodeError
  {
    if lines == [] then Ok([])
    else
      match Loads(UnescapeNewlines(lines[0]))
      case Err(e) => Err(e)
      case Ok(v) =>
        match LoadArgs(lines[1..])
        case Err(e) => Err(e)
        case Ok(vs) => Ok([v] + vs)
  }

  /** `xs.index(x)`: the first position holding `x`. */
  function IndexOf<F(==)>(xs: seq<F>, x: F): (i: nat)
    requires x in xs
    ensures i < |xs| && xs[i] == x
    ensures forall j :: 0 <= j < i ==> xs[j] != x
  {
    if xs[0] == x then 0 else 1 + IndexOf(xs[1..], x)
  }

  /** `xs[i]` with Python's indexing: a negative index counts from the end. */
  function PyIndex<F>(xs: seq<F>, i: int): (r: Result<F>)
    ensures r.Ok? <==> -|xs| <= i < |xs|
    ensures 0 <= i < |xs| ==> r == Ok(xs[i])
    ensures -|xs| <= i < 0 ==> r == Ok(xs[|xs| + i])
    ensures r.Err? ==> r.error == IndexError
  {
    if 0 <= i < |xs| then Ok(xs[i])
    else if -|xs| <= i < 0 then Ok(xs[|xs| + i])
    else Err(IndexError)
  }

  /** The parsing half of `from_callback_data`, run before the version is
      looked at: the version line, the index line read by `int()`, and the
      argument lines read by `json.loads`. */
  function ParseToken(token: string): (r: Result<(string, int, seq<JValue>)>)
    ensures |SplitLines(token)| < 2 ==> r == Err(IndexError)
    ensures |SplitLines(token)| >= 2 && ParseInt(SplitLines(token)[1]).Err? ==> r == Err(ValueError)
    ensures r.Ok? ==> |SplitLines(token)| >= 2 && r.value.0 == SplitLines(token)[0]
    ensures r.Ok? ==> ParseInt(SplitLines(token)[1]) == Ok(r.value.1)
    ensures r.Ok? ==> LoadArgs(SplitLines(token)[2..]) == Ok(r.value.2)
  {
    var lines := SplitLines(token);
    if |lines| < 2 then Err(IndexError)
    else
      match ParseInt(lines[1])
      case Err(e) => Err(e)
      case Ok(idx) =>
        match LoadArgs(lines[2..])
        case Err(e) => Err(e)
        case Ok(args) => Ok((lines[0], idx, args))
  }

  class CallbackStorage<F(==)> {
    const callbacksVersion: string
    var callbacks: seq<F>

    /** No callback is registered twice. */
    ghost predicate Valid()
      reads this
    {
      forall i, j :: 0 <= i < j < |callbacks| ==> callbacks[i] != callbacks[j]
    }

    constructor (version: string)
      ensures callbacksVersion == version && callbacks == [] && Valid()
    {
      callbacksVersion := version;
      callbacks := [];
    }

    /** `register`: appends a callback not seen before and hands it back;
        registering one twice fails its assertion and changes nothing. */
    method Register(callback: F) returns (r: Result<F>)
      requires Valid()
      modifies this
      ensures Valid()
      ensures callback in old(callbacks) ==> r == Err(AssertionError) && callbacks == old(callbacks)
      ensures callback !in old(callbacks) ==>
                r == Ok(callback) && callbacks == old(callbacks) + [callback]
    {
      if callback in callbacks {
        return Err(AssertionError);
      }
      callbacks := callbacks + [callback];
      r := Ok(callback);
    }

    /** `to_callback_data`: keyword arguments fail the assertion, an
        unregistered callback fails `list.index`; otherwise the token's lines
        are the version, the callback's position and one line per argument. */
    function ToCallbackData(p: Partial<F>): (r: Result<string>)
      reads this
      ensures p.keywords != map[] ==> r == Err(AssertionError)
      ensures p.keywords == map[] ==> (r.Ok? <==> p.func in callbacks)
      ensures p.keywords == map[] && p.func !in callbacks ==> r == Err(ValueError)
    {
      if p.keywords != map[] then Err(AssertionError)
      else if p.func !in callbacks then Err(ValueError)
      else
        var idx := IndexOf(callbacks, p.func);
        Ok(Join([callbacksVersion, IntToString(idx)] + ArgLines(p.args), "\n"))
    }

    /** `from_callback_data`: a token that does not parse raises whatever its
        version; a parsed token of another version is the no-op; otherwise the
        index is looked up with Python's indexing. */
    function FromCallbackData(token: string): (r: Result<Decoded<F>>)
      reads this
      ensures ParseToken(token).Err? ==> r == Err(ParseToken(token).error)
      ensures ParseToken(token).Ok? && ParseToken(token).value.0 != callbacksVersion ==>
                r == Ok(NoOp)
      ensures ParseToken(token).Ok? && ParseToken(token).value.0 == callbacksVersion ==>
                var (_, idx, args) := ParseToken(token).value;
                && (r.Ok? <==> -|callbacks| <= idx < |callbacks|)
                && (r.Err? ==> r.error == IndexError)
                && (r.Ok? ==> r.value == Call(PyIndex(callbacks, idx).value, args))
    {
      match ParseToken(token)
      case Err(e) => Err(e)
      case Ok((version, idx, args)) =>
        if version != callbacksVersion then Ok(NoOp)
        else
          match PyIndex(callbacks, idx)
          case Err(e) => Err(e)
          case Ok(f) => Ok(Call(f, args))
    }
  }

  // ---------------------------------------------------------------------
  // Properties

  lemma ArgLineIsDumps(a: JValue)
    ensures ArgLine(a) == Dumps(a) && NoLineBreak(ArgLine(a)) && ArgLine(a) != []
  {
    DumpsIsOneLine(a);
    assert '\n' !in Dumps(a);
  }

  /** A token's lines: the version, the index in decimal, and `json.dumps` of
      each argument, when the version holds no line boundary. */
  lemma TokenLines<F>(s: CallbackStorage<F>, p: Partial<F>)
    requires NoLineBreak(s.callbacksVersion)
    requires s.ToCallbackData(p).Ok?
    ensures var lines := SplitLines(s.ToCallbackData(p).value);
            && |lines| == |p.args| + 2
            && lines[0] == s.callbacksVersion
            && lines[1] == IntToString(IndexOf(s.callbacks, p.func))
            && forall i :: 0 <= i < |p.args| ==> lines[i + 2] == Dumps(p.args[i])
  {
    var lines := [s.callbacksVersion, IntToString(IndexOf(s.callbacks, p.func))] + ArgLines(p.args);
    forall i | 0 <= i < |lines| ensures NoLineBreak(lines[i]) {
      if i == 1 {
        IntToStringIsOneLine(IndexOf(s.callbacks, p.func));
      } else if i >= 2 {
        ArgLineIsDumps(p.args[i - 2]);
      }
    }
    assert lines[|lines| - 1] != [] by {
      if |p.args| > 0 { ArgLineIsDumps(p.args[|p.args| - 1]); }
    }
    SplitLinesOfJoin(lines);
    forall i | 0 <= i < |p.args| ensures lines[i + 2] == Dumps(p.args[i]) {
      ArgLineIsDumps(p.args[i]);
    }
  }

  lemma LoadArgLines(args: seq<JValue>)
    ensures LoadArgs(ArgLines(args)) == Ok(args)
  {
    var lines := ArgLines(args);
    forall i | 0 <= i < |lines| ensures Loads(UnescapeNewlines(lines[i])) == Ok(args[i]) {
      ArgLineIsDumps(args[i]);
      LoadsDumps(args[i]);
    }
    assert LoadArgs(lines).value == args;
  }

  /** Decoding a token made by the same storage gives back the callback with
      equal arguments in the same order. */
  lemma RoundTrip<F>(s: CallbackStorage<F>, p: Partial<F>)
    requires p.keywords == map[] && p.func in s.callbacks
    requires NoLineBreak(s.callbacksVersion)
    ensures s.ToCallbackData(p).Ok?
    ensures s.FromCallbackData(s.ToCallbackData(p).value) == Ok(Call(p.func, p.args))
  {
    var token := s.ToCallbackData(p).value;
    var idx := IndexOf(s.callbacks, p.func);
    TokenLines(s, p);
    var lines := SplitLines(token);
    ParseIntOfString(idx);
    assert lines[2..] == ArgLines(p.args);
    LoadArgLines(p.args);
    assert ParseToken(token) == Ok((s.callbacksVersion, idx, p.args));
  }

  /** A token made under another version decodes to the no-op. */
  lemma StaleToken<F>(s: CallbackStorage<F>, old_: CallbackStorage<F>, p: Partial<F>)
    requires p.keywords == map[] && p.func in old_.callbacks
    requires NoLineBreak(old_.callbacksVersion)
    requires old_.callbacksVersion != s.callbacksVersion
    ensures old_.ToCallbackData(p).Ok?
    ensures s.FromCallbackData(old_.ToCallbackData(p).value) == Ok(NoOp)
  {
    var token := old_.ToCallbackData(p).value;
    var idx := IndexOf(old_.callbacks, p.func);
    TokenLines(old_, p);
    ParseIntOfString(idx);
    assert SplitLines(token)[2..] == ArgLines(p.args);
    LoadArgLines(p.args);
    assert ParseToken(token) == Ok((old_.callbacksVersion, idx, p.args));
  }

  /** In a storage without duplicates, the encoded index is the registration position. */
  lemma IndexIsPosition<F>(s: CallbackStorage<F>, k: nat)
    requires s.Valid() && k < |s.callbacks|
    ensures IndexOf(s.callbacks, s.callbacks[k]) == k
  {
  }
}

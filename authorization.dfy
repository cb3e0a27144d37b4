/** `AuthorizationService`: teacher access is membership in the superuser list. */
module Authorization {

  datatype AuthorizationService = AuthorizationService(superusers: seq<int>)
  {
    /** Reads the list and changes nothing. */
    predicate HasTeacherAccess(userId: int): (granted: bool)
      ensures granted <==> exists i :: 0 <= i < |superusers| && superusers[i] == userId
      ensures superusers == [] ==> !granted
    {
      userId in superusers
    }

    /** The users listed, forgetting order and repetition. */
    function Users(): set<int> {
      set u | u in superusers
    }
  }

  /** The answer depends only on which users are listed, not on their order
      or how often they are listed. */
  lemma AccessIgnoresOrderAndRepeats(a: AuthorizationService, b: AuthorizationService, userId: int)
    requires a.Users() == b.Users()
    ensures a.HasTeacherAccess(userId) <==> b.HasTeacherAccess(userId)
  {
    assert a.HasTeacherAccess(userId) <==> userId in a.Users();
    assert b.HasTeacherAccess(userId) <==> userId in b.Users();
  }
}

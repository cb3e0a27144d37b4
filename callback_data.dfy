/**
 * The closed union of button actions (`AnyCallbackData`). Each variant is one
 * pydantic record class whose `type` field is a fixed literal; the fields
 * besides `type` are the constructor's parameters.
 */
module CallbackData {
  import opened Common

  /** The item type literals: 'S' student, 'R' report, 'T' topic. */
  datatype ItemType = S | R | T

  /** The item types allowed where only students and topics make sense
      (`Literal['S', 'T']`): reports are never deleted or chosen in the wizard. */
  type EntityType = t: ItemType | t != R witness S

  datatype Action =
    | CreateTopic(page: int)
    | CreateStudent(page: int)
    | AddParentIdToStudent(studentId: int, page: int)
    | UpdateStudentName(studentId: int, page: int)
    | ReportBuilderShowItemList(entityType: EntityType, page: int)
    | ReportBuilderChooseItemList(entityType: EntityType, itemId: int)
    | ReportBuilder1
    | ReportBuilder1SetValueFromButton(lessonDay: string)
    | ReportBuilder1EnterManually
    | ReportBuilder3ChooseTopic(id: int)
    | ReportBuilder4(studentId: int)
    | ReportBuilder5SetHomeworkStatus(homeworkStatus: int)
    | ReportBuilder6SetIsProactive(isActive: int)
    | ReportBuilder7SetIsPaid(paymentStatus: int)
    | ReportBuilder8AddCommentQuestion
    | ReportBuilderShowReportPreview
    | SaveConfirmedReport(parentId: Option<int>)
    | ShowItemsList(itemType: ItemType, itemFilter: Option<int>, page: int)
    | ShowOneItem(itemType: ItemType, itemFilter: Option<int>, page: int, itemId: int)
    | DeleteOneItem(entityType: EntityType, page: int, itemId: int)
    | DeleteConfirmedItem(entityType: EntityType, page: int, itemId: int)
    | SendSavedReports
    | GoBackToAdminPanel

  /** The `type` literals of the variants, in the order the union lists them. */
  const TypeTags: seq<string> := [
    "create_topic", "create_student", "add_parent_id", "update_student_name",
    "show_rb_item_list", "choose_rb_item_list", "rb_1", "rb_1_from_button",
    "rb_1_manual", "rb_3", "rb_4", "rb_5", "rb_6", "rb_7", "rb_8",
    "show_preview_report", "save_report", "show_items_list", "s_i",
    "del_item", "del_c_item", "send_saved_reports", "back_to_admin_panel"
  ]

  /** The position of the action's variant in the union. */
  function VariantIndex(a: Action): (i: nat)
    ensures i < |TypeTags|
  {
    match a
    case CreateTopic(_) => 0
    case CreateStudent(_) => 1
    case AddParentIdToStudent(_, _) => 2
    case UpdateStudentName(_, _) => 3
    case ReportBuilderShowItemList(_, _) => 4
    case ReportBuilderChooseItemList(_, _) => 5
    case ReportBuilder1 => 6
    case ReportBuilder1SetValueFromButton(_) => 7
    case ReportBuilder1EnterManually => 8
    case ReportBuilder3ChooseTopic(_) => 9
    case ReportBuilder4(_) => 10
    case ReportBuilder5SetHomeworkStatus(_) => 11
    case ReportBuilder6SetIsProactive(_) => 12
    case ReportBuilder7SetIsPaid(_) => 13
    case ReportBuilder8AddCommentQuestion => 14
    case ReportBuilderShowReportPreview => 15
    case SaveConfirmedReport(_) => 16
    case ShowItemsList(_, _, _) => 17
    case ShowOneItem(_, _, _, _) => 18
    case DeleteOneItem(_, _, _) => 19
    case DeleteConfirmedItem(_, _, _) => 20
    case SendSavedReports => 21
    case GoBackToAdminPanel => 22
  }

  /** The value of the action's `type` field. */
  function TypeTag(a: Action): string {
    match a
    case CreateTopic(_) => "create_topic"
    case CreateStudent(_) => "create_student"
    case AddParentIdToStudent(_, _) => "add_parent_id"
    case UpdateStudentName(_, _) => "update_student_name"
    case ReportBuilderShowItemList(_, _) => "show_rb_item_list"
    case ReportBuilderChooseItemList(_, _) => "choose_rb_item_list"
    case ReportBuilder1 => "rb_1"
    case ReportBuilder1SetValueFromButton(_) => "rb_1_from_button"
    case ReportBuilder1EnterManually => "rb_1_manual"
    case ReportBuilder3ChooseTopic(_) => "rb_3"
    case ReportBuilder4(_) => "rb_4"
    case ReportBuilder5SetHomeworkStatus(_) => "rb_5"
    case ReportBuilder6SetIsProactive(_) => "rb_6"
    case ReportBuilder7SetIsPaid(_) => "rb_7"
    case ReportBuilder8AddCommentQuestion => "rb_8"
    case ReportBuilderShowReportPreview => "show_preview_report"
    case SaveConfirmedReport(_) => "save_report"
    case ShowItemsList(_, _, _) => "show_items_list"
    case ShowOneItem(_, _, _, _) => "s_i"
    case DeleteOneItem(_, _, _) => "del_item"
    case DeleteConfirmedItem(_, _, _) => "del_c_item"
    case SendSavedReports => "send_saved_reports"
    case GoBackToAdminPanel => "back_to_admin_panel"
  }

  /** The variant a `type` literal selects, as the discriminated union does;
      None for a string that is not one of the 23 literals. */
  function VariantOfTag(tag: string): (r: Option<nat>)
    ensures r.Some? ==> r.value < |TypeTags| && TypeTags[r.value] == tag
    ensures r.None? ==> tag !in TypeTags
  {
    FindTag(tag, 0)
  }

  function FindTag(tag: string, from: nat): (r: Option<nat>)
    requires from <= |TypeTags|
    ensures r.Some? ==> from <= r.value < |TypeTags| && TypeTags[r.value] == tag
    ensures r.Some? ==> forall j :: from <= j < r.value ==> TypeTags[j] != tag
    ensures r.None? ==> forall j :: from <= j < |TypeTags| ==> TypeTags[j] != tag
    decreases |TypeTags| - from
  {
    if from == |TypeTags| then None
    else if TypeTags[from] == tag then Some(from)
    else FindTag(tag, from + 1)
  }

  lemma TypeTagListed(a: Action)
    ensures TypeTag(a) == TypeTags[VariantIndex(a)]
  {
  }

  /** No two variants share a `type` literal. */
  lemma TypeTagsDistinct()
    ensures forall i, j :: 0 <= i < j < |TypeTags| ==> TypeTags[i] != TypeTags[j]
  {
    forall i, j | 0 <= i < j < |TypeTags| ensures TypeTags[i] != TypeTags[j] {
      TagsDiffer(i, j);
    }
  }

  lemma TagsDiffer(i: nat, j: nat)
    requires i < j < |TypeTags|
    ensures TypeTags[i] != TypeTags[j]
  {
  }

  /** The `type` literal tells the variant: the union is a discriminated sum,
      and decoding an action's literal selects that action's own variant. */
  lemma TypeTagDiscriminates(a: Action, b: Action)
    ensures TypeTag(a) == TypeTag(b) <==> VariantIndex(a) == VariantIndex(b)
    ensures VariantOfTag(TypeTag(a)) == Some(VariantIndex(a))
  {
    TypeTagListed(a);
    TypeTagListed(b);
    TypeTagsDistinct();
  }
}

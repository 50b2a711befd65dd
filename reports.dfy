/**
 * The moderation list of src/components/admin/Reports.js: the status filter
 * it queries with, the pending-only actions, the edit form seeded from a
 * report, and the in-place edit of an option's text. Answer options are
 * objects: the report and the edit form can hold the very same ones.
 */
module Reports {
  import opened Common
  import opened Api

  /** An answer option as the server sends it; its text is edited in place. */
  class OptionObj {
    var optionText: string
    var isCorrect: bool

    constructor (optionText: string, isCorrect: bool)
      ensures this.optionText == optionText && this.isCorrect == isCorrect
    {
      this.optionText := optionText;
      this.isCorrect := isCorrect;
    }
  }

  /** The reported question (`report.questionId`, populated). */
  datatype Question = Question(questionText: Option<string>, options: Option<seq<OptionObj>>)

  datatype Report = Report(id: string, status: string, question: Option<Question>)

  /** `report.questionId?.options || []`. */
  function OptionsOf(r: Report): seq<OptionObj> {
    if r.question.Some? && r.question.value.options.Some? then r.question.value.options.value else []
  }

  /** The texts a report's preview lists. */
  function PreviewTexts(r: Report): (texts: seq<string>)
    reads set j | 0 <= j < |OptionsOf(r)| :: OptionsOf(r)[j]
    ensures |texts| == |OptionsOf(r)|
    ensures forall j :: 0 <= j < |texts| ==> texts[j] == OptionsOf(r)[j].optionText
  {
    seq(|OptionsOf(r)|, j reads set j | 0 <= j < |OptionsOf(r)| :: OptionsOf(r)[j]
                          requires 0 <= j < |OptionsOf(r)| => OptionsOf(r)[j].optionText)
  }

  /** `filter !== 'all' ? { status: filter } : {}`: the status sent, if any. */
  function ParamsFor(filter: string): (status: Option<string>)
    ensures status.None? <==> filter == "all"
    ensures status.Some? ==> status.value == filter
  {
    if filter != "all" then Some(filter) else None
  }

  /** `report._id.slice(-6)`: the last six characters, or the whole id when shorter. */
  function Label(id: string): (shown: string)
    ensures |shown| == if |id| < 6 then |id| else 6
    ensures shown == id[|id| - |shown|..]
  {
    if |id| <= 6 then id else id[|id| - 6..]
  }

  /** Fix, Ignore and Delete are offered for a pending report that is not being edited. */
  predicate ShowsActions(r: Report, editing: Option<string>) {
    editing != Some(r.id) && r.status == "pending"
  }

  /** A report that is not pending never offers an action, whatever is being edited. */
  lemma OnlyPendingOffersActions(r: Report, editing: Option<string>)
    ensures ShowsActions(r, editing) ==> r.status == "pending"
    ensures r.status == "pending" && editing.None? ==> ShowsActions(r, editing)
    ensures editing == Some(r.id) ==> !ShowsActions(r, editing)
  {
  }

  /** The edit form's value. */
  datatype EditForm = EditForm(questionText: string, options: seq<OptionObj>)

  const FixedAlert := "Question fixed successfully"
  const FixErrorAlert := "Error fixing question"

  /** `options.map(o => ({ ...o }))`: fresh option objects with the same texts and flags. */
  method CopyOptions(source: seq<OptionObj>) returns (copies: seq<OptionObj>)
    ensures |copies| == |source|
    ensures forall n :: 0 <= n < |copies| ==>
      fresh(copies[n]) && copies[n].optionText == source[n].optionText && copies[n].isCorrect == source[n].isCorrect
    ensures forall n, m :: 0 <= n < m < |copies| ==> copies[n] != copies[m]
  {
    copies := [];
    var i := 0;
    while i < |source|
      invariant 0 <= i <= |source| && |copies| == i
      invariant forall n :: 0 <= n < i ==>
        fresh(copies[n]) && copies[n].optionText == source[n].optionText && copies[n].isCorrect == source[n].isCorrect
      invariant forall n, m :: 0 <= n < m < i ==> copies[n] != copies[m]
    {
      var c := new OptionObj(source[i].optionText, source[i].isCorrect);
      copies := copies + [c];
      i := i + 1;
    }
  }

  /** The page's state. */
  class ReportsPage {
    var reports: seq<Report>
    var filter: string
    var loading: bool
    var editingQuestion: Option<string>
    var editForm: EditForm

    /** The edit form holds none of `r`'s option objects. */
    predicate Detached(r: Report)
      reads this
    {
      forall i, j :: 0 <= i < |editForm.options| && 0 <= j < |OptionsOf(r)| ==> editForm.options[i] != OptionsOf(r)[j]
    }

    constructor ()
      ensures reports == [] && filter == "all" && loading && editingQuestion.None?
      ensures editForm == EditForm("", [])
    {
      reports := [];
      filter := "all";
      loading := true;
      editingQuestion := None;
      editForm := EditForm("", []);
    }

    /** `fetchReports` with the filter's params: the list is replaced on success; loading ends either way. */
    method FetchReports(reply: Reply<seq<Report>>) returns (status: Option<string>)
      modifies this
      ensures status == ParamsFor(filter) && filter == old(filter) && !loading
      ensures reply.Ok? ==> reports == reply.data
      ensures reply.Err? ==> reports == old(reports)
      ensures editingQuestion == old(editingQuestion) && editForm == old(editForm)
    {
      status := ParamsFor(filter);
      if reply.Ok? {
        reports := reply.data;
      }
      loading := false;
    }

    /** A filter button. */
    method SetFilter(f: string)
      modifies this
      ensures filter == f && reports == old(reports) && editingQuestion == old(editingQuestion)
      ensures editForm == old(editForm) && loading == old(loading)
    {
      filter := f;
    }

    /**
     * `startEditing` as written: the form's option list is the report's own
     * list, so it holds the report's option objects.
     */
    method StartEditingShared(r: Report)
      modifies this
      ensures editingQuestion == Some(r.id)
      ensures editForm.questionText == (if r.question.Some? && Truthy(r.question.value.questionText)
                                        then r.question.value.questionText.value else "")
      ensures editForm.options == OptionsOf(r)
      ensures reports == old(reports) && filter == old(filter) && loading == old(loading)
    {
      editingQuestion := Some(r.id);
      var text := if r.question.Some? && Truthy(r.question.value.questionText)
                  then r.question.value.questionText.value else "";
      editForm := EditForm(text, OptionsOf(r));
    }

    /**
     * `startEditing` seeding the form with copies of the report's options:
     * the same texts and flags, in fresh objects, so editing cannot reach
     * the report.
     */
    method StartEditing(r: Report)
      modifies this
      ensures editingQuestion == Some(r.id)
      ensures editForm.questionText == (if r.question.Some? && Truthy(r.question.value.questionText)
                                        then r.question.value.questionText.value else "")
      ensures |editForm.options| == |OptionsOf(r)|
      ensures forall i :: 0 <= i < |editForm.options| ==>
        && fresh(editForm.options[i])
        && editForm.options[i].optionText == OptionsOf(r)[i].optionText
        && editForm.options[i].isCorrect == OptionsOf(r)[i].isCorrect
      ensures forall i, j :: 0 <= i < j < |editForm.options| ==> editForm.options[i] != editForm.options[j]
      ensures forall k :: 0 <= k < |reports| ==> Detached(reports[k])
      ensures Detached(r)
      ensures reports == old(reports) && filter == old(filter) && loading == old(loading)
    {
      editingQuestion := Some(r.id);
      var text := if r.question.Some? && Truthy(r.question.value.questionText)
                  then r.question.value.questionText.value else "";
      var copies := CopyOptions(OptionsOf(r));
      editForm := EditForm(text, copies);
    }

    /** The question text field. */
    method EditQuestionText(text: string)
      modifies this
      ensures editForm == old(editForm).(questionText := text)
      ensures reports == old(reports) && editingQuestion == old(editingQuestion)
      ensures filter == old(filter) && loading == old(loading)
    {
      editForm := editForm.(questionText := text);
    }

    /**
     * An option field: a copy of the option list whose element `idx` has its
     * text overwritten in place. The list holds the same objects; an option
     * object other than that one keeps its text, wherever it is held.
     */
    method EditOption(idx: nat, text: string)
      requires idx < |editForm.options|
      modifies this, editForm.options[idx]
      ensures editForm == old(editForm)
      ensures editForm.options[idx].optionText == text
      ensures forall o: OptionObj :: old(allocated(o)) && o != editForm.options[idx] ==> o.optionText == old(o.optionText)
      ensures reports == old(reports) && editingQuestion == old(editingQuestion)
      ensures filter == old(filter) && loading == old(loading)
    {
      var newOptions := editForm.options;
      newOptions[idx].optionText := text;
      editForm := editForm.(options := newOptions);
    }

    /** The Cancel button. */
    method Cancel()
      modifies this
      ensures editingQuestion.None? && editForm == old(editForm) && reports == old(reports)
      ensures filter == old(filter) && loading == old(loading)
    {
      editingQuestion := None;
    }

    /** `handleFix`: the form is sent; on success editing ends and the list is refetched. */
    method HandleFix(reportId: string, reply: Reply<()>) returns (request: string, body: EditForm, refetch: bool, alert: string)
      modifies this
      ensures request == "/reports/" + reportId + "/fix" && body == old(editForm)
      ensures reply.Ok? ==> editingQuestion.None? && refetch && alert == FixedAlert
      ensures reply.Err? ==> editingQuestion == old(editingQuestion) && !refetch && alert == FixErrorAlert
      ensures reports == old(reports) && editForm == old(editForm)
      ensures filter == old(filter) && loading == old(loading)
    {
      request, body := "/reports/" + reportId + "/fix", editForm;
      if reply.Ok? {
        editingQuestion := None;
        refetch, alert := true, FixedAlert;
      } else {
        refetch, alert := false, FixErrorAlert;
      }
    }
  }

  /** `handleIgnore`: the request, and a refetch only on success. */
  method HandleIgnore(reportId: string, reply: Reply<()>) returns (request: string, refetch: bool)
    ensures request == "/reports/" + reportId + "/ignore"
    ensures refetch <==> reply.Ok?
  {
    request := "/reports/" + reportId + "/ignore";
    refetch := reply.Ok?;
  }

  /** `handleDelete`: no request unless the confirmation is accepted; a refetch only after a successful delete. */
  method HandleDelete(reportId: string, confirmed: bool, reply: Reply<()>) returns (request: Option<string>, refetch: bool)
    ensures request.Some? <==> confirmed
    ensures request.Some? ==> request.value == "/reports/" + reportId
    ensures refetch <==> confirmed && reply.Ok?
  {
    request, refetch := None, false;
    if confirmed {
      request := Some("/reports/" + reportId);
      refetch := reply.Ok?;
    }
  }

  /**
   * The code as written: start editing a report whose first option reads
   * "A", type "B" into it and press Cancel; the report's preview then reads
   * "B", although nothing was saved.
   */
  method CancelAfterSharedEditShowsEdit() returns (before: seq<string>, after: seq<string>)
    ensures before == ["A"] && after == ["B"]
  {
    var opt := new OptionObj("A", true);
    var r := Report("r1", "pending", Some(Question(Some("Q"), Some([opt]))));
    var page := new ReportsPage();
    before := PreviewTexts(r);
    page.StartEditingShared(r);
    page.EditOption(0, "B");
    page.Cancel();
    after := PreviewTexts(r);
  }

  /**
   * With the form seeded by copies, any edit followed by Cancel leaves every
   * report's preview as it was.
   */
  method CancelAfterEditKeepsPreview(page: ReportsPage, r: Report, idx: nat, text: string)
    returns (before: seq<string>, after: seq<string>)
    requires idx < |OptionsOf(r)|
    modifies page
    ensures before == after
  {
    before := PreviewTexts(r);
    page.StartEditing(r);
    page.EditOption(idx, text);
    page.Cancel();
    after := PreviewTexts(r);
  }
}

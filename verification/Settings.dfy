/** The service-template settings screen (src/pages/Settings.tsx): templates whose
    task lists are edited as newline-separated text, with create/edit/delete. */
module Settings {
  import opened Wrappers
  import opened Seqs
  import opened Text

  /** `ServiceTemplate`; the type is the string the form's select submitted. */
  datatype ServiceTemplate = ServiceTemplate(
    id: int,
    name: string,
    serviceType: string,
    description: string,
    tasks: seq<string>,
    estimatedHours: real,
    price: real)

  function TemplateId(t: ServiceTemplate): int { t.id }

  /** The form's fields; a number field that does not read as a number is `None`. */
  datatype TemplateInput = TemplateInput(
    name: string,
    serviceType: string,
    description: string,
    estimatedHours: Option<real>,
    price: Option<real>,
    tasks: string)

  /** `formattedData`: the accepted form with its task text parsed. */
  datatype TemplateForm = TemplateForm(
    name: string,
    serviceType: string,
    description: string,
    estimatedHours: real,
    price: real,
    tasks: seq<string>)

  /** `t => t.trim() !== ''`. */
  predicate NotBlankLine(line: string)
  {
    Trim(line) != ""
  }

  /** `text.split('\n').filter(t => t.trim() !== '')`: the non-blank lines, unchanged and in
      order, each as often as it occurs in the text; blank lines are dropped. */
  function TaskLines(text: string): (r: seq<string>)
    ensures forall i :: 0 <= i < |r| ==> '\n' !in r[i] && !IsBlank(r[i])
    ensures var lines := Split(text, '\n');
      forall i :: 0 <= i < |lines| && !IsBlank(lines[i]) ==> lines[i] in r
    ensures var lines := Split(text, '\n');
      forall i :: 0 <= i < |lines| ==> multiset(r)[lines[i]] == if IsBlank(lines[i]) then 0 else multiset(lines)[lines[i]]
    ensures IsSubsequence(r, Split(text, '\n'))
  {
    var lines := Split(text, '\n');
    FilterIsSubsequence(lines, NotBlankLine);
    var r := Filter(lines, NotBlankLine);
    forall i | 0 <= i < |r| ensures !IsBlank(r[i]) {
      TrimEmptyIffBlank(r[i]);
    }
    forall i | 0 <= i < |lines| ensures NotBlankLine(lines[i]) == !IsBlank(lines[i]) {
      TrimEmptyIffBlank(lines[i]);
    }
    FilterMultiplicity(lines, NotBlankLine);
    r
  }

  /** Round trip: the text a template opens with (`tasks.join('\n')`) parses back to the
      same task list, provided no task is blank or holds a newline. */
  lemma TaskLinesJoin(tasks: seq<string>)
    requires forall i :: 0 <= i < |tasks| ==> '\n' !in tasks[i] && !IsBlank(tasks[i])
    ensures TaskLines(Join(tasks, '\n')) == tasks
  {
    forall i | 0 <= i < |tasks| ensures NotBlankLine(tasks[i]) {
      TrimEmptyIffBlank(tasks[i]);
    }
    var text := Join(tasks, '\n');
    assert TaskLines(text) == Filter(Split(text, '\n'), NotBlankLine);
    if tasks == [] {
      TrimEmptyIffBlank("");
      assert Split("", '\n') == [""];
    } else {
      SplitJoin(tasks, '\n');
      assert Split(text, '\n') == tasks;
      FilterKeepsAll(tasks, NotBlankLine);
    }
  }

  /** Text made only of blank lines passes the schema's `required` yet yields no task. */
  lemma BlankTextGivesNoTasks(text: string)
    requires IsBlank(text)
    ensures TaskLines(text) == []
  {
    var lines := Split(text, '\n');
    forall i | 0 <= i < |lines| ensures !NotBlankLine(lines[i]) {
      SplitOfBlank(text, i);
      TrimEmptyIffBlank(lines[i]);
    }
    FilterKeepsNone(lines, NotBlankLine);
  }

  /** Every piece of a blank text is blank. */
  lemma {:induction false} SplitOfBlank(text: string, i: nat)
    requires IsBlank(text) && i < |Split(text, '\n')|
    ensures IsBlank(Split(text, '\n')[i])
  {
    if text != [] {
      var rest := Split(text[1..], '\n');
      if text[0] == '\n' {
        if i > 0 {
          SplitOfBlank(text[1..], i - 1);
        }
      } else if i == 0 {
        SplitOfBlank(text[1..], 0);
      } else {
        SplitOfBlank(text[1..], i);
      }
    }
  }

  /** `templateSchema`: name, type, description and task text non-empty, hours and price
      numbers above zero; the accepted task text is then parsed into lines. */
  function ValidateTemplate(input: TemplateInput): (r: Option<TemplateForm>)
    ensures r.Some? <==>
      && input.name != "" && input.serviceType != "" && input.description != "" && input.tasks != ""
      && input.estimatedHours.Some? && input.estimatedHours.value > 0.0
      && input.price.Some? && input.price.value > 0.0
    ensures r.Some? ==>
      && r.value.name == input.name && r.value.serviceType == input.serviceType
      && r.value.description == input.description
      && r.value.estimatedHours == input.estimatedHours.value && r.value.price == input.price.value
      && r.value.tasks == TaskLines(input.tasks)
  {
    if input.name == "" || input.serviceType == "" || input.description == "" || input.tasks == "" then None
    else if input.estimatedHours.None? || input.estimatedHours.value <= 0.0 then None
    else if input.price.None? || input.price.value <= 0.0 then None
    else Some(TemplateForm(input.name, input.serviceType, input.description,
                           input.estimatedHours.value, input.price.value, TaskLines(input.tasks)))
  }

  /** `reset(...)` in `handleOpenModal`: the template's fields with its tasks joined by
      newlines, or the blank form. */
  function OpenedForm(template: Option<ServiceTemplate>): TemplateInput
  {
    match template
    case Some(t) => TemplateInput(t.name, t.serviceType, t.description, Some(t.estimatedHours), Some(t.price), Join(t.tasks, '\n'))
    case None => TemplateInput("", "VAT", "", Some(0.0), Some(0.0), "")
  }

  /** The blank form does not pass the schema: a new template needs its fields filled in. */
  lemma BlankFormRejected()
    ensures ValidateTemplate(OpenedForm(None)).None?
  {
  }

  /** `{ ...t, ...formattedData }`. */
  function Overwritten(t: ServiceTemplate, form: TemplateForm): ServiceTemplate
  {
    t.(name := form.name, serviceType := form.serviceType, description := form.description,
       tasks := form.tasks, estimatedHours := form.estimatedHours, price := form.price)
  }

  /** `templates.map(t => t.id === editingId ? { ...t, ...formattedData } : t)`. */
  function EditedTemplates(templates: seq<ServiceTemplate>, editingId: int, form: TemplateForm): (r: seq<ServiceTemplate>)
    ensures |r| == |templates|
    ensures forall i :: 0 <= i < |templates| && templates[i].id != editingId ==> r[i] == templates[i]
    ensures forall i :: 0 <= i < |templates| && templates[i].id == editingId ==> r[i] == Overwritten(templates[i], form)
    ensures forall i :: 0 <= i < |templates| ==> r[i].id == templates[i].id
  {
    MapWhere(templates, (t: ServiceTemplate) => t.id == editingId, (t: ServiceTemplate) => Overwritten(t, form))
  }

  /** A template whose fields the schema accepts, and whose tasks are non-blank single
      lines, opens on a form that validates back to its own fields. */
  lemma OpenedFormValidates(t: ServiceTemplate)
    requires t.name != "" && t.serviceType != "" && t.description != ""
    requires t.estimatedHours > 0.0 && t.price > 0.0
    requires |t.tasks| >= 1 && forall i :: 0 <= i < |t.tasks| ==> '\n' !in t.tasks[i] && !IsBlank(t.tasks[i])
    ensures ValidateTemplate(OpenedForm(Some(t)))
      == Some(TemplateForm(t.name, t.serviceType, t.description, t.estimatedHours, t.price, t.tasks))
  {
    TaskLinesJoin(t.tasks);
    assert Join(t.tasks, '\n') != "" by {
      if |t.tasks| == 1 {
        assert t.tasks[0] != "";
      } else {
        assert Join(t.tasks, '\n')[|t.tasks[0]|] == '\n';
      }
    }
  }

  /** A template whose tasks are non-blank single lines, opened and saved without change,
      leaves the list as it was. */
  lemma ResubmitUnchanged(templates: seq<ServiceTemplate>, t: ServiceTemplate)
    requires DistinctBy(templates, TemplateId) && t in templates
    requires t.name != "" && t.serviceType != "" && t.description != ""
    requires t.estimatedHours > 0.0 && t.price > 0.0
    requires |t.tasks| >= 1 && forall i :: 0 <= i < |t.tasks| ==> '\n' !in t.tasks[i] && !IsBlank(t.tasks[i])
    ensures ValidateTemplate(OpenedForm(Some(t))).Some?
    ensures EditedTemplates(templates, t.id, ValidateTemplate(OpenedForm(Some(t))).value) == templates
  {
    OpenedFormValidates(t);
    var form := TemplateForm(t.name, t.serviceType, t.description, t.estimatedHours, t.price, t.tasks);
    assert Overwritten(t, form) == t;
    var r := EditedTemplates(templates, t.id, form);
    forall i | 0 <= i < |templates| ensures r[i] == templates[i] {
      if templates[i].id == t.id {
        var k :| 0 <= k < |templates| && templates[k] == t;
        assert TemplateId(templates[i]) == TemplateId(templates[k]);
        assert i == k;
      }
    }
  }

  /** The new template's id as written: `templates.length + 1`. */
  function LengthPlusOne(templates: seq<ServiceTemplate>): int
  {
    |templates| + 1
  }

  /** The new template's id as intended: one more than the largest id, so larger than every id. */
  function NextTemplateId(templates: seq<ServiceTemplate>): (r: int)
    ensures forall i :: 0 <= i < |templates| ==> templates[i].id < r
    ensures templates == [] ==> r == 1
    ensures templates != [] ==> exists i :: 0 <= i < |templates| && r == templates[i].id + 1
  {
    var ids := Map(templates, TemplateId);
    assert forall i :: 0 <= i < |ids| ==> ids[i] == templates[i].id;
    MaxPlusOne(ids)
  }

  /** `{ id, ...formattedData }`. */
  function CreatedTemplate(id: int, form: TemplateForm): ServiceTemplate
  {
    ServiceTemplate(id, form.name, form.serviceType, form.description, form.tasks, form.estimatedHours, form.price)
  }

  /** `generateMockTemplates(3)`: three fixed templates numbered `1..3`. */
  function SeededTemplates(): (r: seq<ServiceTemplate>)
    ensures |r| == 3 && forall i :: 0 <= i < |r| ==> r[i].id == i + 1
  {
    [ ServiceTemplate(1, "Monthly VAT Return", "VAT", "Complete monthly VAT201 preparation and submission",
                      ["Collect VAT documents", "Reconcile VAT accounts", "Prepare VAT201", "Submit to SARS"], 4.0, 1500.0),
      ServiceTemplate(2, "Full Payroll Service", "Payroll", "Complete monthly payroll processing service",
                      ["Process payroll", "Generate payslips", "Submit EMP201", "Handle queries"], 8.0, 2500.0),
      ServiceTemplate(3, "Annual Financial Audit", "Audit", "Comprehensive annual financial statement audit",
                      ["Plan audit", "Test controls", "Substantive testing", "Report preparation"], 120.0, 45000.0) ]
  }

  /** With unique ids, the as-written id is fresh exactly when no template already has id
      `length + 1`; while the ids are `1..n` (no deletion yet) it always is. */
  lemma LengthPlusOneFresh(templates: seq<ServiceTemplate>, form: TemplateForm)
    requires DistinctBy(templates, TemplateId)
    ensures DistinctBy([CreatedTemplate(LengthPlusOne(templates), form)] + templates, TemplateId) <==>
      forall i :: 0 <= i < |templates| ==> templates[i].id != |templates| + 1
    ensures (forall i :: 0 <= i < |templates| ==> templates[i].id == i + 1) ==>
      DistinctBy([CreatedTemplate(LengthPlusOne(templates), form)] + templates, TemplateId)
  {
    PrependDistinctBy(CreatedTemplate(LengthPlusOne(templates), form), templates, TemplateId);
  }

  /** From templates numbered `1..n`, deleting template `k` and then creating one repeats an
      id exactly when `k` was not the last id `n`. */
  lemma DeleteThenCreate(templates: seq<ServiceTemplate>, k: int, form: TemplateForm)
    requires forall i :: 0 <= i < |templates| ==> templates[i].id == i + 1
    requires 1 <= k <= |templates|
    ensures var remaining := RemoveKey(templates, TemplateId, k);
      DistinctBy([CreatedTemplate(LengthPlusOne(remaining), form)] + remaining, TemplateId) <==> k == |templates|
  {
    var n := |templates|;
    assert DistinctBy(templates, TemplateId);
    assert TemplateId(templates[k - 1]) == k;
    RemoveKeyCount(templates, TemplateId, k);
    RemoveKeyKeepsDistinct(templates, TemplateId, k);
    var remaining := RemoveKey(templates, TemplateId, k);
    assert LengthPlusOne(remaining) == n;
    LengthPlusOneFresh(remaining, form);
    if k < n {
      assert TemplateId(templates[n - 1]) != k;
      assert templates[n - 1] in remaining;
      var j :| 0 <= j < |remaining| && remaining[j] == templates[n - 1];
      assert remaining[j].id == |remaining| + 1;
    }
  }

  /** With `length + 1`, deleting the first of three templates numbered `1..3` (the shape
      `SeededTemplates` ensures) and adding one gives the new template id 3, which the third
      template still has. */
  lemma LengthPlusOneCollides(seeded: seq<ServiceTemplate>, form: TemplateForm)
    requires |seeded| == 3 && forall i :: 0 <= i < 3 ==> seeded[i].id == i + 1
    ensures var remaining := RemoveKey(seeded, TemplateId, 1);
      && LengthPlusOne(remaining) == 3
      && seeded[2] in remaining && seeded[2].id == 3
      && !DistinctBy([CreatedTemplate(LengthPlusOne(remaining), form)] + remaining, TemplateId)
  {
    assert TemplateId(seeded[0]) == 1 && TemplateId(seeded[2]) == 3;
    assert DistinctBy(seeded, TemplateId);
    RemoveKeyPresent(seeded, TemplateId, 0);
    var remaining := RemoveKey(seeded, TemplateId, 1);
    assert seeded[2] in remaining;
    var j :| 0 <= j < |remaining| && remaining[j] == seeded[2];
    var after := [CreatedTemplate(LengthPlusOne(remaining), form)] + remaining;
    assert TemplateId(after[0]) == TemplateId(after[j + 1]);
  }

  /** With the intended id, creating keeps ids unique. */
  lemma CreateKeepsIdsUnique(templates: seq<ServiceTemplate>, form: TemplateForm)
    requires DistinctBy(templates, TemplateId)
    ensures DistinctBy([CreatedTemplate(NextTemplateId(templates), form)] + templates, TemplateId)
  {
    var r := [CreatedTemplate(NextTemplateId(templates), form)] + templates;
    forall i, j | 0 <= i < j < |r| ensures TemplateId(r[i]) != TemplateId(r[j]) {
      assert r[j] == templates[j - 1];
      if i > 0 {
        assert r[i] == templates[i - 1];
      }
    }
  }

  /** `getServiceTypeColor(type)`: the six service types have their own colours, anything else gray. */
  function ServiceTypeColor(serviceType: string): (r: string)
    ensures serviceType !in {"VAT", "Payroll", "Audit", "Tax", "Bookkeeping", "Compliance"} ==>
      r == "bg-gray-100 text-gray-800"
    ensures serviceType in {"VAT", "Payroll", "Audit", "Tax", "Bookkeeping", "Compliance"} ==>
      r != "bg-gray-100 text-gray-800"
  {
    if serviceType == "VAT" then "bg-blue-100 text-blue-800"
    else if serviceType == "Payroll" then "bg-green-100 text-green-800"
    else if serviceType == "Audit" then "bg-purple-100 text-purple-800"
    else if serviceType == "Tax" then "bg-orange-100 text-orange-800"
    else if serviceType == "Bookkeeping" then "bg-yellow-100 text-yellow-800"
    else if serviceType == "Compliance" then "bg-red-100 text-red-800"
    else "bg-gray-100 text-gray-800"
  }

  /** No two service types share a colour. */
  lemma ServiceTypeColorsDistinct(a: string, b: string)
    requires a in {"VAT", "Payroll", "Audit", "Tax", "Bookkeeping", "Compliance"}
    requires b in {"VAT", "Payroll", "Audit", "Tax", "Bookkeeping", "Compliance"}
    requires a != b
    ensures ServiceTypeColor(a) != ServiceTypeColor(b)
  {
  }

  class SettingsPage {
    var templates: seq<ServiceTemplate>
    var isModalOpen: bool
    var editingTemplate: Option<ServiceTemplate>
    var deletingTemplateId: Option<int>

    /** Every template id is positive: the seeded ids are `1..3` and `length + 1` is at least
        1, so no template carries the id `0` that the delete guard treats as none. Ids need
        not be unique (see `DeleteThenCreate`). */
    predicate Valid()
      reads this
    {
      forall i :: 0 <= i < |templates| ==> templates[i].id >= 1
    }

    /** Mounting with the three seeded templates. */
    constructor ()
      ensures Valid()
      ensures templates == SeededTemplates() && !isModalOpen && editingTemplate.None? && deletingTemplateId.None?
    {
      templates := SeededTemplates();
      isModalOpen := false;
      editingTemplate := None;
      deletingTemplateId := None;
    }

    /** `handleOpenModal(template)`: returns the values the form is reset to. */
    method OpenModal(template: Option<ServiceTemplate>) returns (form: TemplateInput)
      requires Valid()
      modifies this
      ensures Valid()
      ensures isModalOpen && editingTemplate == template
      ensures form == OpenedForm(template)
      ensures templates == old(templates) && deletingTemplateId == old(deletingTemplateId)
    {
      editingTemplate := template;
      form := OpenedForm(template);
      isModalOpen := true;
    }

    /** `handleCloseModal`. */
    method CloseModal()
      requires Valid()
      modifies this
      ensures Valid()
      ensures !isModalOpen && editingTemplate.None?
      ensures templates == old(templates) && deletingTemplateId == old(deletingTemplateId)
    {
      isModalOpen := false;
      editingTemplate := None;
    }

    /** The accepted branch of `handleSubmit`: the edited template is overwritten, or a new
        template with id `templates.length + 1` goes first; the modal closes. */
    method Save(form: TemplateForm)
      requires Valid()
      modifies this
      ensures Valid()
      ensures !isModalOpen && editingTemplate.None? && deletingTemplateId == old(deletingTemplateId)
      ensures old(editingTemplate).Some? ==> templates == EditedTemplates(old(templates), old(editingTemplate).value.id, form)
      ensures old(editingTemplate).None? ==> templates == [CreatedTemplate(LengthPlusOne(old(templates)), form)] + old(templates)
    {
      if editingTemplate.Some? {
        var edited := EditedTemplates(templates, editingTemplate.value.id, form);
        assert forall i :: 0 <= i < |edited| ==> edited[i].id == templates[i].id;
        templates := edited;
      } else {
        var created := [CreatedTemplate(|templates| + 1, form)] + templates;
        assert forall i :: 1 <= i < |created| ==> created[i] == templates[i - 1];
        templates := created;
      }
      CloseModal();
    }

    /** `handleSubmit(onSubmit)`: input rejected by the schema changes nothing; otherwise the
        edited template is overwritten, or a new template with id `templates.length + 1` goes
        first, and the modal closes. */
    method Submit(input: TemplateInput)
      requires Valid()
      modifies this
      ensures Valid()
      ensures deletingTemplateId == old(deletingTemplateId)
      ensures ValidateTemplate(input).None? ==>
        templates == old(templates) && isModalOpen == old(isModalOpen) && editingTemplate == old(editingTemplate)
      ensures ValidateTemplate(input).Some? ==> !isModalOpen && editingTemplate.None?
      ensures ValidateTemplate(input).Some? && old(editingTemplate).Some? ==>
        templates == EditedTemplates(old(templates), old(editingTemplate).value.id, ValidateTemplate(input).value)
      ensures ValidateTemplate(input).Some? && old(editingTemplate).None? ==>
        templates == [CreatedTemplate(LengthPlusOne(old(templates)), ValidateTemplate(input).value)] + old(templates)
    {
      var checked := ValidateTemplate(input);
      if checked.Some? {
        Save(checked.value);
      }
    }

    /** The card's delete button, and the dialog's dismissal (`None`). */
    method SetDeleting(id: Option<int>)
      requires Valid()
      modifies this
      ensures Valid()
      ensures deletingTemplateId == id
      ensures templates == old(templates) && isModalOpen == old(isModalOpen) && editingTemplate == old(editingTemplate)
    {
      deletingTemplateId := id;
    }

    /** `handleDeleteTemplate`: with a pending id (`0` counts as none) every template with it
        goes and the pending id is cleared; otherwise nothing happens. */
    method DeleteTemplate()
      requires Valid()
      modifies this
      ensures Valid()
      ensures isModalOpen == old(isModalOpen) && editingTemplate == old(editingTemplate)
      ensures old(deletingTemplateId).None? || old(deletingTemplateId) == Some(0) ==>
        templates == old(templates) && deletingTemplateId == old(deletingTemplateId)
      ensures old(deletingTemplateId).Some? && old(deletingTemplateId) != Some(0) ==>
        templates == RemoveKey(old(templates), TemplateId, old(deletingTemplateId).value) && deletingTemplateId.None?
    {
      if deletingTemplateId.Some? && deletingTemplateId.value != 0 {
        templates := RemoveKey(templates, TemplateId, deletingTemplateId.value);
        deletingTemplateId := None;
      }
    }
  }
}

/** The state of the questionnaire page and its handlers, each modelled
    as one sequential update. React runs the template-derivation effect
    after a render in which `subSelection` or `templates` changed; the
    handlers below run it at their end under that same condition. The
    service calls (`getTemplates`, `processQuestionnaire`) are represented
    by how they settle, the id generator by the fresh id it returns, and
    the delayed navigation by the route it will open. */
module Questionnaire {
  import opened Wrappers
  import opened Strings
  import opened QuestionnaireModel

  /** What `getTemplates` resolved with: an array of templates, or some
      other value. */
  datatype CatalogResponse = TemplateArray(items: seq<Template>) | OtherData

  /** The add-question dialog's draft (`newQuestion`). */
  datatype NewQuestion = NewQuestion(kind: QuestionType, caption: string, options: seq<string>)

  const BlankNewQuestion: NewQuestion := NewQuestion(Text, "", [])

  /** The answer an added question starts with: `[]` for checkboxes, `''` otherwise. */
  function InitialValue(kind: QuestionType): (r: Answer)
    ensures r.Arr? <==> kind == Checkbox
    ensures r.Arr? ==> r.items == []
    ensures r.Str? ==> r.s == ""
  {
    if kind == Checkbox then Arr([]) else Str("")
  }

  class Form {
    /** `DEFAULT_PROJECT_ID`, a constant of a module not modelled here. */
    const projectId: string

    var responses: Responses
    var subSelection: string
    var templateQuestions: seq<TemplateQuestion>
    var templates: seq<Template>
    var loading: bool
    var isSubmitting: bool
    var error: string
    var success: string
    var editDialogOpen: bool
    var editIndex: Option<nat>
    /** `editData`; None for its initial `{}`. */
    var editData: Option<TemplateQuestion>
    var addDialogOpen: bool
    var newQuestion: NewQuestion
    var submitAttempted: bool
    /** The route the delayed `navigate` will open, once one is scheduled. */
    var navigation: Option<string>

    constructor (projectId: string)
      ensures this.projectId == projectId
      ensures responses == map[] && subSelection == "" && templateQuestions == [] && templates == []
      ensures loading && !isSubmitting && error == "" && success == ""
      ensures !editDialogOpen && editIndex == None && editData == None
      ensures !addDialogOpen && newQuestion == BlankNewQuestion
      ensures !submitAttempted && navigation == None
    {
      this.projectId := projectId;
      responses := map[];
      subSelection := "";
      templateQuestions := [];
      templates := [];
      loading := true;
      isSubmitting := false;
      error := "";
      success := "";
      editDialogOpen := false;
      editIndex := None;
      editData := None;
      addDialogOpen := false;
      newQuestion := BlankNewQuestion;
      submitAttempted := false;
      navigation := None;
    }

    /** The submit button is enabled. */
    predicate SubmitEnabled(): (r: bool)
      reads this
      ensures r <==> !isSubmitting && FirstGateFailure(responses, subSelection, templateQuestions).None?
    {
      !isSubmitting && AllAnswered(responses, subSelection, templateQuestions)
    }

    /** The end of `fetchTemplates` on mount; the new catalog re-runs the
        derivation effect. */
    method TemplatesFetched(fetched: Outcome<CatalogResponse>)
      modifies this`templates, this`loading, this`templateQuestions
      ensures templates == (if fetched.Resolved? && fetched.value.TemplateArray? then fetched.value.items else [])
      ensures !loading
      ensures templateQuestions == DeriveQuestions(templates, subSelection)
    {
      match fetched {
        case Resolved(data) =>
          templates := if data.TemplateArray? then data.items else [];
        case Rejected(_) =>
          templates := [];
      }
      loading := false;
      templateQuestions := DeriveQuestions(templates, subSelection);
    }

    /** `handleGeneralChange(id, value)`: answers one general question;
        a new project type clears the system type and the question list,
        but no answer is removed. */
    method HandleGeneralChange(id: string, value: string)
      modifies this`responses, this`subSelection, this`templateQuestions
      ensures responses == old(responses)[id := Str(value)]
      ensures id == "projectType" ==> subSelection == "" && templateQuestions == []
      ensures id != "projectType" ==> subSelection == old(subSelection) && templateQuestions == old(templateQuestions)
    {
      responses := responses[id := Str(value)];
      if id == "projectType" {
        var previous := subSelection;
        subSelection := "";
        templateQuestions := [];
        if subSelection != previous {
          templateQuestions := DeriveQuestions(templates, subSelection);
        }
      }
    }

    /** `handleSubSelection(value)`: the system type is recorded both as the
        sub-selection and as the `subSystemType` answer; a changed
        selection derives its own question list. */
    method HandleSubSelection(value: string)
      modifies this`subSelection, this`responses, this`templateQuestions
      ensures subSelection == value
      ensures responses == old(responses)["subSystemType" := Str(value)]
      ensures value != old(subSelection) ==> templateQuestions == DeriveQuestions(templates, value)
      ensures value == old(subSelection) ==> templateQuestions == old(templateQuestions)
    {
      var previous := subSelection;
      subSelection := value;
      responses := responses["subSystemType" := Str(value)];
      if subSelection != previous {
        templateQuestions := DeriveQuestions(templates, subSelection);
      }
    }

    /** `handleTemplateChange(id, value)`: answers one template question. */
    method HandleTemplateChange(id: string, value: Answer)
      modifies this`responses
      ensures responses == old(responses)[id := value]
    {
      responses := responses[id := value];
    }

    /** `loadExample()` as written: the example answers are computed for
        the question list on screen, and only afterwards does the new
        sub-selection derive the example system type's list. */
    method LoadExample()
      modifies this`responses, this`subSelection, this`submitAttempted, this`templateQuestions
      ensures responses == ExampleResponses(old(templateQuestions))
      ensures subSelection == ExampleSubSystemType && !submitAttempted
      ensures old(subSelection) != ExampleSubSystemType ==> templateQuestions == DeriveQuestions(templates, ExampleSubSystemType)
      ensures old(subSelection) == ExampleSubSystemType ==> templateQuestions == old(templateQuestions)
    {
      var templateResponseMap := FillTemplateExampleAnswers(templateQuestions);
      responses := ExampleResponse + templateResponseMap;
      var previous := subSelection;
      subSelection := ExampleSubSystemType;
      submitAttempted := false;
      if subSelection != previous {
        templateQuestions := DeriveQuestions(templates, subSelection);
      }
    }

    /** `loadExample()` as evidently intended: the example answers are
        computed for the list the example's system type shows, so the
        loaded form always passes the gate. */
    method LoadExampleIntended()
      modifies this`responses, this`subSelection, this`submitAttempted, this`templateQuestions
      ensures subSelection == ExampleSubSystemType && !submitAttempted
      ensures old(subSelection) != ExampleSubSystemType ==> templateQuestions == DeriveQuestions(templates, ExampleSubSystemType)
      ensures old(subSelection) == ExampleSubSystemType ==> templateQuestions == old(templateQuestions)
      ensures responses == ExampleResponses(templateQuestions)
      ensures AllAnswered(responses, subSelection, templateQuestions)
    {
      if subSelection != ExampleSubSystemType {
        templateQuestions := DeriveQuestions(templates, ExampleSubSystemType);
      }
      subSelection := ExampleSubSystemType;
      var templateResponseMap := FillTemplateExampleAnswers(templateQuestions);
      responses := ExampleResponse + templateResponseMap;
      submitAttempted := false;
      ExampleAnswersComplete(templateQuestions);
    }

    /** `handleSubmit()`, given how `processQuestionnaire` settles. The
        gate's checks run in order; when one fails nothing is posted.
        Otherwise exactly one payload is posted: every answer (none
        filtered out), the default project id, and the template type of
        the sub-selection. */
    method HandleSubmit(processed: Outcome<()>) returns (posted: Option<Submission>)
      modifies this`submitAttempted, this`isSubmitting, this`error, this`success, this`navigation
      ensures submitAttempted && !isSubmitting
      ensures posted.Some? <==> AllAnswered(responses, subSelection, templateQuestions)
      ensures FirstGateFailure(responses, subSelection, templateQuestions).Some? ==>
                && error == GateMessage(FirstGateFailure(responses, subSelection, templateQuestions).value)
                && success == "" && navigation == old(navigation)
      ensures posted.Some? ==> posted.value == Submission(responses, projectId, TemplateTypeOf(subSelection))
      ensures posted.Some? && processed.Resolved? ==>
                success == SubmittedMessage && error == "" && navigation == Some(ResultsRoute)
      ensures posted.Some? && processed.Rejected? ==>
                error == MessageOr(processed.message, SubmitFailedMessage) && success == "" && navigation == old(navigation)
    {
      submitAttempted := true;
      isSubmitting := true;
      error := "";
      success := "";
      var failure := CheckGate(responses, subSelection, templateQuestions);
      if failure.Some? {
        error := GateMessage(failure.value);
        isSubmitting := false;
        return None;
      }
      var templateType := "";
      if subSelection == "ai-system" {
        templateType := "AI System";
      } else if subSelection == "cybersecurity" {
        templateType := "Cybersecurity Management System";
      } else if subSelection == "thirdparty-ai" {
        templateType := "Third-party AI System";
      } else if subSelection == "thirdparty-cyber" {
        templateType := "Third-party Cybersecurity System";
      }
      posted := Some(Submission(responses, projectId, templateType));
      match processed {
        case Resolved(_) =>
          success := SubmittedMessage;
          navigation := Some(ResultsRoute);
        case Rejected(message) =>
          error := MessageOr(message, SubmitFailedMessage);
      }
      isSubmitting := false;
    }

    /** `handleEdit(index)`: opens the edit dialog on a copy of the question. */
    method HandleEdit(index: nat)
      requires index < |templateQuestions|
      modifies this`editData, this`editDialogOpen, this`editIndex
      ensures editData == Some(templateQuestions[index])
      ensures editDialogOpen && editIndex == Some(index)
    {
      editData := Some(templateQuestions[index]);
      editDialogOpen := true;
      editIndex := Some(index);
    }

    /** The edit dialog's question field. */
    method EditCaption(caption: string)
      requires editData.Some?
      modifies this`editData
      ensures editData == Some(old(editData).value.(caption := caption))
    {
      editData := Some(editData.value.(caption := caption));
    }

    /** The edit dialog's option editor. */
    method EditOptions(options: seq<string>)
      requires editData.Some?
      modifies this`editData
      ensures editData == Some(old(editData).value.(options := options))
    {
      editData := Some(editData.value.(options := options));
    }

    /** `handleEditSave()`: the edited copy replaces the question at the
        edited position; every other position keeps its question. The
        dialog is modal, so the list cannot change between `HandleEdit`
        and here. */
    method HandleEditSave()
      requires editIndex.Some? && editIndex.value < |templateQuestions| && editData.Some?
      modifies this`templateQuestions, this`editDialogOpen, this`editIndex
      ensures |templateQuestions| == |old(templateQuestions)|
      ensures templateQuestions[old(editIndex).value] == editData.value
      ensures forall j :: 0 <= j < |templateQuestions| && j != old(editIndex).value ==>
                templateQuestions[j] == old(templateQuestions)[j]
      ensures !editDialogOpen && editIndex == None
    {
      var updated := templateQuestions;
      updated := updated[editIndex.value := editData.value];
      templateQuestions := updated;
      editDialogOpen := false;
      editIndex := None;
    }

    /** Closing the edit dialog without saving. */
    method CancelEdit()
      modifies this`editDialogOpen, this`editIndex
      ensures !editDialogOpen && editIndex == None
    {
      editDialogOpen := false;
      editIndex := None;
    }

    /** `handleAdd()`: opens the add dialog on a blank draft. */
    method HandleAdd()
      modifies this`newQuestion, this`addDialogOpen
      ensures newQuestion == BlankNewQuestion && addDialogOpen
    {
      newQuestion := BlankNewQuestion;
      addDialogOpen := true;
    }

    /** The add dialog's question field. */
    method SetNewCaption(caption: string)
      modifies this`newQuestion
      ensures newQuestion == old(newQuestion).(caption := caption)
    {
      newQuestion := newQuestion.(caption := caption);
    }

    /** The add dialog's type select, which also clears the options. */
    method SetNewKind(kind: QuestionType)
      modifies this`newQuestion
      ensures newQuestion == old(newQuestion).(kind := kind, options := [])
    {
      newQuestion := newQuestion.(kind := kind, options := []);
    }

    /** The add dialog's option editor. */
    method SetNewOptions(options: seq<string>)
      modifies this`newQuestion
      ensures newQuestion == old(newQuestion).(options := options)
    {
      newQuestion := newQuestion.(options := options);
    }

    /** `handleAddSave()`; `freshId` is the id `nanoid()` returns. A blank
        (after trimming) question text changes nothing; otherwise exactly
        one question is appended, without a `required` flag, so it is
        never required. */
    method HandleAddSave(freshId: string)
      requires forall j :: 0 <= j < |templateQuestions| ==> templateQuestions[j].id != freshId
      modifies this`templateQuestions, this`addDialogOpen
      ensures Trim(newQuestion.caption) == "" ==>
                templateQuestions == old(templateQuestions) && addDialogOpen == old(addDialogOpen)
      ensures Trim(newQuestion.caption) != "" ==>
                && templateQuestions == old(templateQuestions) + [TemplateQuestion(
                     freshId, newQuestion.kind, newQuestion.caption, newQuestion.options,
                     InitialValue(newQuestion.kind), false, "")]
                && !addDialogOpen
    {
      if Trim(newQuestion.caption) == "" {
        return;
      }
      templateQuestions := templateQuestions + [TemplateQuestion(
        freshId, newQuestion.kind, newQuestion.caption, newQuestion.options,
        if newQuestion.kind == Checkbox then Arr([]) else Str(""), false, "")];
      addDialogOpen := false;
    }

    /** Closing the add dialog without saving. */
    method CancelAdd()
      modifies this`addDialogOpen
      ensures !addDialogOpen
    {
      addDialogOpen := false;
    }
  }

  /** The catalog of the scenario below: one AI-system template with two
      id-less questions, the second explicitly required. */
  const ScenarioCatalog: seq<Template> :=
    [Template("AI System", Some([SourceQuestion("", "Is a human in the loop?", None),
                                 SourceQuestion("", "Is the model retrained?", Some(true))]))]

  /** The internal AI-system selection derives both questions, keyed "1"
      and "2" and both required. */
  lemma ScenarioQuestions()
    ensures var r := DeriveQuestions(ScenarioCatalog, "ai-system");
      |r| == 2 && r[0].id == "1" && r[1].id == "2" && r[0].required && r[1].required
  {
    assert FindTemplate(ScenarioCatalog, "AI System") == Some(0);
    assert NatToString(1) == "1" && NatToString(2) == "2";
  }

  /** An answer outlives a switch of the system type: answering the i-th
      question of the list on screen, when that question came without an
      id, and then choosing another system type whose template's i-th
      question has no id either, leaves that new question answered. */
  method AnswerSurvivesSwitch(form: Form, i: nat, value: Answer, sub2: string)
    requires form.templateQuestions == DeriveQuestions(form.templates, form.subSelection)
    requires sub2 != form.subSelection
    requires MatchedQuestions(form.templates, form.subSelection).Some? && MatchedQuestions(form.templates, sub2).Some?
    requires i < |MatchedQuestions(form.templates, form.subSelection).value| && i < |MatchedQuestions(form.templates, sub2).value|
    requires MatchedQuestions(form.templates, form.subSelection).value[i].id == ""
    requires MatchedQuestions(form.templates, sub2).value[i].id == ""
    requires value.Arr? || value.s != ""
    modifies form
    ensures form.subSelection == sub2 && form.templateQuestions == DeriveQuestions(form.templates, sub2)
    ensures i < |form.templateQuestions| && Answered(form.responses, form.templateQuestions[i].id)
  {
    var sub1 := form.subSelection;
    DeriveQuestionsSpec(form.templates, sub1);
    var key := form.templateQuestions[i].id;
    assert key == NatToString(i + 1);
    assert key[0] != 's';
    form.HandleTemplateChange(key, value);
    form.HandleSubSelection(sub2);
    StaleAnswerCounts(form.responses, form.templates, sub1, sub2, i);
  }

  /** Answering a scenario question keeps the general answers. */
  lemma ScenarioAnswerKeepsGeneral(responses: Responses, id: string, value: Answer)
    requires AllGeneralAnswered(responses) && (id == "1" || id == "2")
    ensures AllGeneralAnswered(responses[id := value])
  {
    GeneralGateKeys(responses);
    GeneralGateKeys(responses[id := value]);
  }

  /** The general answers of the scenario below, written over any answers. */
  function ScenarioGeneralAnswers(responses: Responses): (r: Responses) {
    responses["requestOwner" := Str("Jane Doe, US")]["projectType" := Str("internal")]
      ["region" := Str("US")]["purpose" := Str("Automate triage")]["dateRange" := Str("Jan-Mar 2025")]
      ["subSystemType" := Str("ai-system")]
  }

  /** Those answers pass the general part of the gate. */
  lemma ScenarioGeneralAnswered(responses: Responses)
    ensures AllGeneralAnswered(ScenarioGeneralAnswers(responses))
    ensures Answered(ScenarioGeneralAnswers(responses), "projectType")
  {
    GeneralGateKeys(ScenarioGeneralAnswers(responses));
  }

  /** A form whose required general questions are answered through the
      handlers (the optional `delayFactors` never touched), with the
      internal AI-system flow selected. */
  method ScenarioGeneral(projectId: string) returns (form: Form)
    ensures fresh(form) && form.projectId == projectId && form.subSelection == "ai-system"
    ensures form.templates == ScenarioCatalog
    ensures form.templateQuestions == DeriveQuestions(form.templates, form.subSelection)
    ensures form.responses == ScenarioGeneralAnswers(map[])
  {
    form := new Form(projectId);
    form.TemplatesFetched(Resolved(TemplateArray(ScenarioCatalog)));
    form.HandleGeneralChange("requestOwner", "Jane Doe, US");
    form.HandleGeneralChange("projectType", "internal");
    form.HandleGeneralChange("region", "US");
    form.HandleGeneralChange("purpose", "Automate triage");
    form.HandleGeneralChange("dateRange", "Jan-Mar 2025");
    form.HandleSubSelection("ai-system");
  }

  /** That form with its two template questions answered with "Yes" and
      `second`. */
  method ScenarioForm(projectId: string, second: string) returns (form: Form)
    ensures fresh(form) && form.projectId == projectId && form.subSelection == "ai-system"
    ensures form.responses == ScenarioGeneralAnswers(map[])["1" := Str("Yes")]["2" := Str(second)]
    ensures AllAnswered(form.responses, form.subSelection, form.templateQuestions) <==> second != ""
  {
    form := ScenarioGeneral(projectId);
    ScenarioGeneralAnswered(map[]);
    ScenarioQuestions();
    ScenarioAnswerKeepsGeneral(form.responses, "1", Str("Yes"));
    form.HandleTemplateChange("1", Str("Yes"));
    ScenarioAnswerKeepsGeneral(form.responses, "2", Str(second));
    form.HandleTemplateChange("2", Str(second));
    var questions := form.templateQuestions;
    assert Answered(form.responses, questions[0].id);
    assert second == "" <==> !Answered(form.responses, questions[1].id);
    assert second == "" <==> !AllTemplateAnswered(form.responses, questions);
  }

  /** Submitting that form: it posts once, with the "AI System" use case,
      exactly when the second question was answered. The payload holds
      eight answers: five general ones, the system type and the two
      template answers. */
  method SubmitScenario(projectId: string, second: string) returns (posted: Option<Submission>)
    ensures second == "" <==> posted.None?
    ensures posted.Some? ==> posted.value.useCaseType == "AI System" && posted.value.projectId == projectId
    ensures posted.Some? ==>
              posted.value.questionnaireResponses == ScenarioGeneralAnswers(map[])["1" := Str("Yes")]["2" := Str(second)]
    ensures posted.Some? ==>
              posted.value.questionnaireResponses.Keys
              == {"requestOwner", "projectType", "region", "purpose", "dateRange", "subSystemType", "1", "2"}
  {
    var form := ScenarioForm(projectId, second);
    assert TemplateTypeOf(form.subSelection) == "AI System";
    posted := form.HandleSubmit(Resolved(()));
  }
}

/** The pure part of the AI use-case questionnaire: its fixed tables, the
    classification chain from the sub-selection to a template type, the
    derivation of the template-question list from the template catalog,
    the required-field gate, and the answers the "Load Example" button
    fills in. */
module QuestionnaireModel {
  import opened Wrappers
  import opened Strings

  // ---------------- answers ----------------

  /** An answer as a question control reports it: text, or the list of
      ticked options of a checkbox question. An unanswered question has
      no key in the responses map. */
  datatype Answer = Str(s: string) | Arr(items: seq<string>)

  type Responses = map<string, Answer>

  /** `!!responses[id]`: JavaScript truthiness. A missing key and the empty
      string are falsy; every array, even an empty one, is truthy. */
  predicate Answered(responses: Responses, id: string): (r: bool)
    ensures id !in responses ==> !r
    ensures id in responses && responses[id].Arr? ==> r
    ensures id in responses && responses[id].Str? ==> (r <==> responses[id].s != "")
  {
    id in responses && (responses[id].Arr? || responses[id].s != "")
  }

  // ---------------- the fixed tables ----------------

  datatype QuestionType = Text | Textarea | Radio | Checkbox

  datatype Choice = Choice(value: string, caption: string)

  datatype GeneralQuestion = GeneralQuestion(
    id: string, caption: string, kind: QuestionType, required: bool,
    placeholder: string, options: seq<Choice>)

  /** `GENERAL_QUESTIONS` */
  const GeneralQuestions: seq<GeneralQuestion> := [
    GeneralQuestion("requestOwner",
      "1. Please enter your name or the name of the person for whom you are submitting this request and the country in which the request owner is located?",
      Text, true, "Name, country...", []),
    GeneralQuestion("projectType",
      "2. Is this project internal to our organization or does it involve any third parties?",
      Radio, true, "",
      [Choice("internal", "Developing a product in-house"),
       Choice("thirdparty", "Adopting/integrating third party AI system")]),
    GeneralQuestion("region",
      "3. From which regions do you need data for your use-case?",
      Text, true, "List regions...", []),
    GeneralQuestion("purpose",
      "4. What is the intended purpose of your system?",
      Textarea, true, "Describe the purpose...", []),
    GeneralQuestion("dateRange",
      "5. What is the date range for when you would like to start and complete the project?",
      Text, true, "e.g., September 2025 - December 31, 2025", []),
    GeneralQuestion("delayFactors",
      "6. Are there any factors that might extend your project timeline?",
      Textarea, false, "Describe any potential delays...", [])
  ]

  /** `SUB_QUESTION_OPTIONS[projectType]`: the system types offered for a
      project type; no entry for any other value. */
  function SubQuestionOptions(projectType: string): (r: Option<seq<Choice>>)
    ensures r.Some? <==> projectType == "internal" || projectType == "thirdparty"
    ensures r.Some? ==> |r.value| == 2 && r.value[0].value != r.value[1].value
    ensures r.Some? ==> forall c :: c in r.value ==> TemplateTypeOf(c.value) != ""
  {
    if projectType == "internal" then
      Some([Choice("ai-system", "AI-System"), Choice("cybersecurity", "Cybersecurity Management system")])
    else if projectType == "thirdparty" then
      Some([Choice("thirdparty-ai", "Third-party AI-System"), Choice("thirdparty-cyber", "Third-party Cybersecurity")])
    else None
  }

  const AiSystem: string := "AI System"
  const CybersecuritySystem: string := "Cybersecurity Management System"
  const ThirdPartyAiSystem: string := "Third-party AI System"
  const ThirdPartyCyberSystem: string := "Third-party Cybersecurity System"

  /** The if-chain from the sub-selection to the template type; "" when the
      sub-selection is none of the four. */
  function TemplateTypeOf(subSelection: string): (r: string)
    ensures r in {"", AiSystem, CybersecuritySystem, ThirdPartyAiSystem, ThirdPartyCyberSystem}
  {
    if subSelection == "ai-system" then AiSystem
    else if subSelection == "cybersecurity" then CybersecuritySystem
    else if subSelection == "thirdparty-ai" then ThirdPartyAiSystem
    else if subSelection == "thirdparty-cyber" then ThirdPartyCyberSystem
    else ""
  }

  /** The classification chain: each project type offers exactly two
      system types, each of which selects its own template type, and no
      two of the four system types share one; any other sub-selection
      selects none. */
  lemma ClassificationChain(sub: string)
    ensures SubQuestionOptions("internal") == Some([Choice("ai-system", "AI-System"), Choice("cybersecurity", "Cybersecurity Management system")])
    ensures SubQuestionOptions("thirdparty") == Some([Choice("thirdparty-ai", "Third-party AI-System"), Choice("thirdparty-cyber", "Third-party Cybersecurity")])
    ensures TemplateTypeOf(sub) != "" <==> sub in {"ai-system", "cybersecurity", "thirdparty-ai", "thirdparty-cyber"}
    ensures forall a, b :: TemplateTypeOf(a) == TemplateTypeOf(b) != "" ==> a == b
    ensures TemplateTypeOf("ai-system") == "AI System"
    ensures TemplateTypeOf("cybersecurity") == "Cybersecurity Management System"
    ensures TemplateTypeOf("thirdparty-ai") == "Third-party AI System"
    ensures TemplateTypeOf("thirdparty-cyber") == "Third-party Cybersecurity System"
  {
  }

  // ---------------- template catalog and derived questions ----------------

  /** A question of a fetched template. `id` is "" for a question that
      has none (or a falsy one); `required` is the field as sent, absent
      when the server leaves it out. */
  datatype SourceQuestion = SourceQuestion(id: string, question: string, required: Option<bool>)

  /** A fetched template; `questions` is absent when the server sends none. */
  datatype Template = Template(templateType: string, questions: Option<seq<SourceQuestion>>)

  /** An entry of the active question list (fetched or added by an admin).
      `options` are the option entries the option editor produces;
      `placeholder` is "" when the entry has none. */
  datatype TemplateQuestion = TemplateQuestion(
    id: string, kind: QuestionType, caption: string, options: seq<string>,
    value: Answer, required: bool, placeholder: string)

  const TemplatePlaceholder: string := "Enter your answer..."

  /** The `map` callback of the derivation effect for the question at
      position `index`. A question without id gets `index + 1`, which as a
      key of the responses object is its decimal rendering. */
  function ToTemplateQuestion(q: SourceQuestion, index: nat): (r: TemplateQuestion)
    ensures r.id != ""
    ensures q.id != "" ==> r.id == q.id
    ensures q.id == "" ==> IsDigits(r.id) && DecimalValue(r.id) == index + 1
    ensures r.caption == q.question && r.kind == Text && r.options == [] && r.value == Str("")
    ensures r.required <==> q.required != Some(false)
  {
    DecimalOfNatToString(index + 1);
    TemplateQuestion(
      if q.id != "" then q.id else NatToString(index + 1),
      Text, q.question, [], Str(""), q.required != Some(false), TemplatePlaceholder)
  }

  /** `templates.find(t => t.templateType === templateType)`, as the
      position of the first match. */
  function FindTemplate(templates: seq<Template>, templateType: string): (r: Option<nat>)
    ensures r.Some? ==> r.value < |templates| && templates[r.value].templateType == templateType
    ensures r.Some? ==> forall j :: 0 <= j < r.value ==> templates[j].templateType != templateType
    ensures r.None? ==> forall j :: 0 <= j < |templates| ==> templates[j].templateType != templateType
  {
    if templates == [] then None
    else if templates[0].templateType == templateType then Some(0)
    else
      match FindTemplate(templates[1..], templateType)
      case Some(k) => Some(k + 1)
      case None => None
  }

  /** The template-derivation effect: the question list for a sub-selection. */
  function DeriveQuestions(templates: seq<Template>, subSelection: string): (questions: seq<TemplateQuestion>) {
    if subSelection == "" then []
    else
      var templateType := TemplateTypeOf(subSelection);
      if templateType == "" then []
      else
        match FindTemplate(templates, templateType)
        case None => []
        case Some(k) =>
          match templates[k].questions
          case None => []
          case Some(qs) => seq(|qs|, i requires 0 <= i < |qs| => ToTemplateQuestion(qs[i], i))
  }

  /** The questions of the first template of the sub-selection's type,
      if one exists and has questions. */
  function MatchedQuestions(templates: seq<Template>, subSelection: string): (r: Option<seq<SourceQuestion>>) {
    if TemplateTypeOf(subSelection) == "" then None
    else match FindTemplate(templates, TemplateTypeOf(subSelection))
      case None => None
      case Some(k) => templates[k].questions
  }

  /** The derived list is empty when there is no sub-selection, when it
      maps to no template type, or when no template of that type (with
      questions) was fetched; otherwise it is the first matching
      template's questions, in order, each a required-unless-marked text
      question labelled with the question and keyed by its id or its
      position plus one. */
  lemma DeriveQuestionsSpec(templates: seq<Template>, subSelection: string)
    ensures var r := DeriveQuestions(templates, subSelection);
      && (MatchedQuestions(templates, subSelection).None? ==> r == [])
      && (subSelection == "" ==> r == [])
      && (MatchedQuestions(templates, subSelection).Some? ==>
            var qs := MatchedQuestions(templates, subSelection).value;
            && |r| == |qs|
            && forall i :: 0 <= i < |qs| ==>
                 && r[i].caption == qs[i].question
                 && r[i].kind == Text && r[i].options == [] && r[i].value == Str("")
                 && r[i].required == (qs[i].required != Some(false))
                 && r[i].id == (if qs[i].id != "" then qs[i].id else NatToString(i + 1)))
      && (MatchedQuestions(templates, subSelection).Some? ==>
            exists k :: 0 <= k < |templates| && templates[k].templateType == TemplateTypeOf(subSelection)
                        && templates[k].questions == MatchedQuestions(templates, subSelection))
  {
    assert TemplateTypeOf("") == "";
    var m := MatchedQuestions(templates, subSelection);
    if m.Some? {
      var k := FindTemplate(templates, TemplateTypeOf(subSelection)).value;
      assert templates[k].questions == m;
    }
  }

  /** Ids of id-less fetched questions are positions, so they repeat from
      one template to the next: the i-th such question of any two
      templates shares its response key. */
  lemma DefaultIdsRepeat(templates: seq<Template>, sub1: string, sub2: string, i: nat)
    requires MatchedQuestions(templates, sub1).Some? && MatchedQuestions(templates, sub2).Some?
    requires i < |MatchedQuestions(templates, sub1).value| && i < |MatchedQuestions(templates, sub2).value|
    requires MatchedQuestions(templates, sub1).value[i].id == "" && MatchedQuestions(templates, sub2).value[i].id == ""
    ensures DeriveQuestions(templates, sub1)[i].id == DeriveQuestions(templates, sub2)[i].id == NatToString(i + 1)
  {
    DeriveQuestionsSpec(templates, sub1);
    DeriveQuestionsSpec(templates, sub2);
  }

  // ---------------- the required-field gate ----------------

  /** `allGeneralAnswered` */
  predicate AllGeneralAnswered(responses: Responses) {
    forall i :: 0 <= i < |GeneralQuestions| ==>
      !GeneralQuestions[i].required || Answered(responses, GeneralQuestions[i].id)
  }

  /** `allSubAnswered` */
  predicate AllSubAnswered(responses: Responses, subSelection: string) {
    !Answered(responses, "projectType") || subSelection != ""
  }

  /** `allTemplateAnswered` */
  predicate AllTemplateAnswered(responses: Responses, templateQuestions: seq<TemplateQuestion>) {
    forall i :: 0 <= i < |templateQuestions| ==>
      !templateQuestions[i].required || Answered(responses, templateQuestions[i].id)
  }

  /** `allAnswered`, which enables the submit button. */
  predicate AllAnswered(responses: Responses, subSelection: string, templateQuestions: seq<TemplateQuestion>) {
    && AllGeneralAnswered(responses)
    && AllSubAnswered(responses, subSelection)
    && AllTemplateAnswered(responses, templateQuestions)
  }

  /** Of the six general questions, all but `delayFactors` must be answered. */
  lemma GeneralGateKeys(responses: Responses)
    ensures AllGeneralAnswered(responses) <==>
      && Answered(responses, "requestOwner") && Answered(responses, "projectType")
      && Answered(responses, "region") && Answered(responses, "purpose")
      && Answered(responses, "dateRange")
  {
    assert GeneralQuestions[0].id == "requestOwner" && GeneralQuestions[1].id == "projectType";
    assert GeneralQuestions[2].id == "region" && GeneralQuestions[3].id == "purpose";
    assert GeneralQuestions[4].id == "dateRange" && !GeneralQuestions[5].required;
  }

  /** Which check of `handleSubmit` stopped the submission. */
  datatype GateFailure = GeneralUnanswered | SystemTypeMissing | TemplateUnanswered

  const RequiredMessage: string := "Please answer all required questions before submitting."
  const SystemTypeMessage: string := "Please select the system type."

  function GateMessage(f: GateFailure): (r: string)
    ensures r == SystemTypeMessage <==> f == SystemTypeMissing
    ensures r == RequiredMessage <==> f != SystemTypeMissing
  {
    match f
    case GeneralUnanswered => RequiredMessage
    case SystemTypeMissing => SystemTypeMessage
    case TemplateUnanswered => RequiredMessage
  }

  /** The first failing check of `handleSubmit`, in its order: general
      questions, then the system type, then the template questions. */
  function FirstGateFailure(responses: Responses, subSelection: string, templateQuestions: seq<TemplateQuestion>): (r: Option<GateFailure>)
    ensures r.None? <==> AllAnswered(responses, subSelection, templateQuestions)
    ensures r == Some(GeneralUnanswered) <==> !AllGeneralAnswered(responses)
    ensures r == Some(SystemTypeMissing) <==> AllGeneralAnswered(responses) && !AllSubAnswered(responses, subSelection)
  {
    if !AllGeneralAnswered(responses) then Some(GeneralUnanswered)
    else if !AllSubAnswered(responses, subSelection) then Some(SystemTypeMissing)
    else if !AllTemplateAnswered(responses, templateQuestions) then Some(TemplateUnanswered)
    else None
  }

  /** The checks of `handleSubmit`, loop by loop with its early returns. */
  method CheckGate(responses: Responses, subSelection: string, templateQuestions: seq<TemplateQuestion>)
    returns (failure: Option<GateFailure>)
    ensures failure == FirstGateFailure(responses, subSelection, templateQuestions)
    ensures failure.None? <==> AllAnswered(responses, subSelection, templateQuestions)
  {
    for i := 0 to |GeneralQuestions|
      invariant forall j :: 0 <= j < i ==> !GeneralQuestions[j].required || Answered(responses, GeneralQuestions[j].id)
    {
      var q := GeneralQuestions[i];
      if q.required && !Answered(responses, q.id) {
        return Some(GeneralUnanswered);
      }
    }
    if Answered(responses, "projectType") && subSelection == "" {
      return Some(SystemTypeMissing);
    }
    for i := 0 to |templateQuestions|
      invariant forall j :: 0 <= j < i ==> !templateQuestions[j].required || Answered(responses, templateQuestions[j].id)
    {
      var q := templateQuestions[i];
      if q.required && !Answered(responses, q.id) {
        return Some(TemplateUnanswered);
      }
    }
    return None;
  }

  /** A question that is not required never holds the gate back: in
      particular one an admin adds, which carries no `required` flag. */
  lemma OptionalQuestionNeverBlocks(responses: Responses, templateQuestions: seq<TemplateQuestion>, q: TemplateQuestion)
    requires !q.required
    ensures AllTemplateAnswered(responses, templateQuestions + [q]) == AllTemplateAnswered(responses, templateQuestions)
  {
    var qs := templateQuestions + [q];
    assert forall i :: 0 <= i < |templateQuestions| ==> qs[i] == templateQuestions[i];
  }

  /** Answers are looked up by id only, and no answer is pruned: an answer
      given to the i-th id-less question of one template answers the i-th
      id-less question of any other template. */
  lemma StaleAnswerCounts(responses: Responses, templates: seq<Template>, sub1: string, sub2: string, i: nat)
    requires MatchedQuestions(templates, sub1).Some? && MatchedQuestions(templates, sub2).Some?
    requires i < |MatchedQuestions(templates, sub1).value| && i < |MatchedQuestions(templates, sub2).value|
    requires MatchedQuestions(templates, sub1).value[i].id == "" && MatchedQuestions(templates, sub2).value[i].id == ""
    requires i < |DeriveQuestions(templates, sub1)| && Answered(responses, DeriveQuestions(templates, sub1)[i].id)
    ensures i < |DeriveQuestions(templates, sub2)|
    ensures Answered(responses, DeriveQuestions(templates, sub2)[i].id)
  {
    DeriveQuestionsSpec(templates, sub2);
    DefaultIdsRepeat(templates, sub1, sub2, i);
  }

  // ---------------- submission ----------------

  /** The payload `handleSubmit` posts. */
  datatype Submission = Submission(questionnaireResponses: Responses, projectId: string, useCaseType: string)

  const SubmittedMessage: string := "Questionnaire submitted successfully! Risk analysis is being generated."
  const SubmitFailedMessage: string := "Failed to submit questionnaire. Please try again."
  const ResultsRoute: string := "/ai-risk-assessment"

  // ---------------- example answers ----------------

  /** `EXAMPLE_RESPONSE` */
  const ExampleResponse: Responses := map[
    "requestOwner" := Str("Priya Singh, India"),
    "projectType" := Str("thirdparty"),
    "region" := Str("India, United States, European Union"),
    "purpose" := Str("To automate document screening and risk analysis using artificial intelligence, aiming to improve operational efficiency, compliance, and data-driven insights."),
    "dateRange" := Str("September 1, 2025 - December 31, 2025"),
    "delayFactors" := Str("Integration complexity, data partner delays, regulatory approval timelines."),
    "subSystemType" := Str("thirdparty-ai")
  ]

  const ExampleSubSystemType: string := "thirdparty-ai"

  /** `EXAMPLE_TEMPLATE_ANSWERS` */
  const ExampleTemplateAnswers: seq<string> := [
    "Yes", "Yes", "Yes", "Yes", "Yes",
    "Yes. We perform annual security audits of all critical third-party partners; evidence can be provided upon request.",
    "Yes", "Yes", "Annually", "Yes", "Yes", "Yes", "Yes", "Yes", "Yes", "Yes", "Yes", "Yes",
    "Quarterly", "Yes", "Yes", "Yes", "Yes", "Yes", "Yes", "Yes", "Yes"
  ]

  /** `EXAMPLE_TEMPLATE_ANSWERS[idx] || 'Yes'` */
  function ExampleAnswer(idx: nat): (r: string)
    ensures r != ""
  {
    if idx < |ExampleTemplateAnswers| && ExampleTemplateAnswers[idx] != "" then ExampleTemplateAnswers[idx] else "Yes"
  }

  /** The map `loadExample` builds with `forEach`: each question's id gets
      the example answer for its position, a later question overwriting an
      earlier one with the same id. */
  function TemplateExampleAnswers(questions: seq<TemplateQuestion>): (answers: Responses) {
    if questions == [] then map[]
    else
      TemplateExampleAnswers(questions[..|questions| - 1])[questions[|questions| - 1].id := Str(ExampleAnswer(|questions| - 1))]
  }

  /** Only the questions' ids are filled, each with a non-empty text. */
  lemma {:induction false} ExampleAnswerKeys(questions: seq<TemplateQuestion>)
    ensures forall k :: k in TemplateExampleAnswers(questions) ==>
      && TemplateExampleAnswers(questions)[k].Str? && TemplateExampleAnswers(questions)[k].s != ""
      && exists j :: 0 <= j < |questions| && questions[j].id == k
  {
    if questions != [] {
      var init := questions[..|questions| - 1];
      ExampleAnswerKeys(init);
      assert forall j :: 0 <= j < |init| ==> questions[j] == init[j];
    }
  }

  /** Every question's id is filled. */
  lemma {:induction false} ExampleAnswerCovers(questions: seq<TemplateQuestion>)
    ensures forall j :: 0 <= j < |questions| ==> questions[j].id in TemplateExampleAnswers(questions)
  {
    if questions != [] {
      var init := questions[..|questions| - 1];
      ExampleAnswerCovers(init);
      assert forall j :: 0 <= j < |init| ==> questions[j] == init[j];
    }
  }

  /** The last question with a given id decides its answer. */
  lemma {:induction false} ExampleAnswerLastWins(questions: seq<TemplateQuestion>, j: nat)
    requires j < |questions|
    requires forall j' :: j < j' < |questions| ==> questions[j'].id != questions[j].id
    ensures questions[j].id in TemplateExampleAnswers(questions)
    ensures TemplateExampleAnswers(questions)[questions[j].id] == Str(ExampleAnswer(j))
  {
    var init := questions[..|questions| - 1];
    var last := questions[|questions| - 1];
    var prev := TemplateExampleAnswers(init);
    assert TemplateExampleAnswers(questions) == prev[last.id := Str(ExampleAnswer(|questions| - 1))];
    if j < |init| {
      assert questions[j] == init[j];
      assert forall j' :: j < j' < |init| ==> init[j'] == questions[j'];
      ExampleAnswerLastWins(init, j);
    }
  }

  /** Exactly the questions' ids are filled, each with the non-empty example
      answer of the last question that has that id. */
  lemma TemplateExampleAnswersSpec(questions: seq<TemplateQuestion>)
    ensures forall k :: k in TemplateExampleAnswers(questions) ==> exists j :: 0 <= j < |questions| && questions[j].id == k
    ensures forall j :: 0 <= j < |questions| ==> Answered(TemplateExampleAnswers(questions), questions[j].id)
    ensures forall j :: 0 <= j < |questions| && (forall j' :: j < j' < |questions| ==> questions[j'].id != questions[j].id)
                 ==> questions[j].id in TemplateExampleAnswers(questions)
                     && TemplateExampleAnswers(questions)[questions[j].id] == Str(ExampleAnswer(j))
  {
    ExampleAnswerKeys(questions);
    ExampleAnswerCovers(questions);
    forall j | 0 <= j < |questions| && (forall j' :: j < j' < |questions| ==> questions[j'].id != questions[j].id)
      ensures questions[j].id in TemplateExampleAnswers(questions)
      ensures TemplateExampleAnswers(questions)[questions[j].id] == Str(ExampleAnswer(j))
    {
      ExampleAnswerLastWins(questions, j);
    }
  }

  /** The same map, built as `loadExample` builds it. */
  method FillTemplateExampleAnswers(questions: seq<TemplateQuestion>) returns (templateResponseMap: Responses)
    ensures templateResponseMap == TemplateExampleAnswers(questions)
  {
    templateResponseMap := map[];
    for idx := 0 to |questions|
      invariant templateResponseMap == TemplateExampleAnswers(questions[..idx])
    {
      assert questions[..idx + 1][..idx] == questions[..idx];
      templateResponseMap := templateResponseMap[questions[idx].id := Str(ExampleAnswer(idx))];
    }
    assert questions[..|questions|] == questions;
  }

  /** `{ ...EXAMPLE_RESPONSE, ...templateResponseMap }` */
  function ExampleResponses(questions: seq<TemplateQuestion>): (responses: Responses) {
    ExampleResponse + TemplateExampleAnswers(questions)
  }

  /** Overlaying non-empty text answers keeps every answered key answered
      and answers every key it sets. */
  lemma OverlayAnswered(base: Responses, over: Responses)
    requires forall k :: k in over ==> over[k].Str? && over[k].s != ""
    ensures forall k :: Answered(base, k) ==> Answered(base + over, k)
    ensures forall k :: k in over ==> Answered(base + over, k)
  {
  }

  lemma ExampleResponseAnswersGeneral()
    ensures AllGeneralAnswered(ExampleResponse)
    ensures Answered(ExampleResponse, "projectType")
  {
    GeneralGateKeys(ExampleResponse);
  }

  /** The example answers, loaded against a question list, pass the gate
      for that list once the sub-selection is the example's. */
  lemma ExampleAnswersComplete(questions: seq<TemplateQuestion>)
    ensures AllAnswered(ExampleResponses(questions), ExampleSubSystemType, questions)
  {
    var m := TemplateExampleAnswers(questions);
    ExampleAnswerKeys(questions);
    ExampleAnswerCovers(questions);
    OverlayAnswered(ExampleResponse, m);
    ExampleResponseAnswersGeneral();
    var r := ExampleResponse + m;
    GeneralGateKeys(ExampleResponse);
    GeneralGateKeys(r);
    assert forall j :: 0 <= j < |questions| ==> Answered(r, questions[j].id);
  }

  /** In particular for the list the example's own system type derives,
      whatever the catalog holds. */
  lemma ExampleForDerivedListIsComplete(templates: seq<Template>)
    ensures var questions := DeriveQuestions(templates, ExampleSubSystemType);
      AllAnswered(ExampleResponses(questions), ExampleSubSystemType, questions)
  {
    ExampleAnswersComplete(DeriveQuestions(templates, ExampleSubSystemType));
  }

  /** `loadExample` fills the list shown BEFORE the sub-selection switches to
      the example's system type; the effect then derives that type's list.
      From a blank form, the third-party AI template's first question is
      left unanswered and the gate stays shut. */
  lemma ExampleFromBlankFormIsIncomplete()
    ensures var templates := [Template(ThirdPartyAiSystem, Some([SourceQuestion("", "Do you audit your vendors?", None)]))];
      var shown := DeriveQuestions(templates, "");
      var derived := DeriveQuestions(templates, ExampleSubSystemType);
      && shown == []
      && |derived| == 1 && derived[0].required
      && !AllAnswered(ExampleResponses(shown), ExampleSubSystemType, derived)
  {
    var templates := [Template(ThirdPartyAiSystem, Some([SourceQuestion("", "Do you audit your vendors?", None)]))];
    var derived := DeriveQuestions(templates, ExampleSubSystemType);
    assert FindTemplate(templates, ThirdPartyAiSystem) == Some(0);
    assert derived[0].id == NatToString(1) == "1";
    assert TemplateExampleAnswers([]) == map[];
    assert "1" !in ExampleResponses([]);
  }
}

/** The questionnaire of the assessment form: the questions of the chosen
    platform, the index of the question on screen, and the answers given so
    far, updated by answering, going back and going forward. */
module Questionnaire {
  import opened Catalog

  /** The ids of a list of questions. */
  function IdSet(qs: seq<Question>): set<string> {
    set i | 0 <= i < |qs| :: qs[i].id
  }

  /** Distinct ids: as many ids as questions. */
  lemma {:induction false} IdSetSize(qs: seq<Question>)
    requires UniqueIds(qs)
    ensures |IdSet(qs)| == |qs|
  {
    if qs != [] {
      var init := qs[..|qs| - 1];
      assert UniqueIds(init);
      IdSetSize(init);
      assert IdSet(qs) == IdSet(init) + {qs[|qs| - 1].id};
      assert qs[|qs| - 1].id !in IdSet(init);
    }
  }

  /** Answers keyed only by question ids number as many as the questions
      exactly when every question has an answer. */
  lemma CountIffAllAnswered(keys: set<string>, qs: seq<Question>)
    requires UniqueIds(qs)
    requires keys <= IdSet(qs)
    ensures |keys| == |qs| <==> forall i :: 0 <= i < |qs| ==> qs[i].id in keys
  {
    IdSetSize(qs);
    if |keys| == |qs| {
      var missing := IdSet(qs) - keys;
      assert |IdSet(qs)| == |keys| + |missing|;
      assert missing == {};
      forall i | 0 <= i < |qs| ensures qs[i].id in keys {
        assert qs[i].id in IdSet(qs);
        assert qs[i].id !in missing;
      }
    }
    if forall i :: 0 <= i < |qs| ==> qs[i].id in keys {
      assert IdSet(qs) <= keys;
      assert keys == IdSet(qs);
    }
  }

  /** The state of the `AssessmentForm` component. */
  class AssessmentForm {
    const questions: seq<Question>
    var currentQuestionIndex: int
    var responses: map<string, string>

    /** The index is on a question (or 0 when there are none) and answers are
        keyed by question ids, which are distinct. */
    predicate Valid()
      reads this
    {
      && UniqueIds(questions)
      && 0 <= currentQuestionIndex
      && (|questions| > 0 ==> currentQuestionIndex < |questions|)
      && (|questions| == 0 ==> currentQuestionIndex == 0)
      && responses.Keys <= IdSet(questions)
    }

    /** The form opens on the first question of the platform's catalog with no
        answers. */
    constructor(platform: string)
      ensures Valid()
      ensures questions == QuestionsForPlatform(platform)
      ensures currentQuestionIndex == 0 && responses == map[]
    {
      questions := QuestionsForPlatform(platform);
      currentQuestionIndex := 0;
      responses := map[];
    }

    /** `Object.keys(responses).length === questions.length`. */
    predicate CanSubmit()
      reads this
    {
      |responses| == |questions|
    }

    predicate IsLastQuestion()
      reads this
    {
      currentQuestionIndex == |questions| - 1
    }

    /** The submit button replaces Next on the last question once the form
        can be submitted. */
    predicate ShowSubmit()
      reads this
    {
      IsLastQuestion() && CanSubmit()
    }

    /** Next is enabled when the question on screen has a non-empty answer and
        is not the last. */
    predicate NextEnabled()
      reads this
      requires Valid()
    {
      && |questions| > 0
      && questions[currentQuestionIndex].id in responses
      && responses[questions[currentQuestionIndex].id] != ""
      && currentQuestionIndex < |questions| - 1
    }

    /** `handleAnswer`: records the answer to the question on screen, keeping
        every other answer, and moves on unless this is the last question.
        Only reachable when the platform has questions. */
    method HandleAnswer(value: string)
      requires Valid() && |questions| > 0
      modifies this
      ensures Valid()
      ensures responses == old(responses)[questions[old(currentQuestionIndex)].id := value]
      ensures currentQuestionIndex ==
        if old(currentQuestionIndex) < |questions| - 1 then old(currentQuestionIndex) + 1 else old(currentQuestionIndex)
    {
      var currentQuestion := questions[currentQuestionIndex];
      responses := responses[currentQuestion.id := value];
      if currentQuestionIndex < |questions| - 1 {
        currentQuestionIndex := currentQuestionIndex + 1;
      }
    }

    /** `handlePrevious`: steps back unless on the first question. */
    method HandlePrevious()
      requires Valid()
      modifies this
      ensures Valid()
      ensures responses == old(responses)
      ensures currentQuestionIndex ==
        if old(currentQuestionIndex) > 0 then old(currentQuestionIndex) - 1 else old(currentQuestionIndex)
    {
      if currentQuestionIndex > 0 {
        currentQuestionIndex := currentQuestionIndex - 1;
      }
    }

    /** The Next button, clickable only while enabled. */
    method Next()
      requires Valid() && NextEnabled()
      modifies this
      ensures Valid()
      ensures responses == old(responses)
      ensures currentQuestionIndex == old(currentQuestionIndex) + 1
    {
      currentQuestionIndex := currentQuestionIndex + 1;
    }

    /** The form can be submitted exactly when every question has an answer,
        and the submit button and an enabled Next never show together. */
    lemma SubmitMeansAllAnswered()
      requires Valid()
      ensures CanSubmit() <==> forall i :: 0 <= i < |questions| ==> questions[i].id in responses
      ensures ShowSubmit() ==> !NextEnabled()
    {
      CountIffAllAnswered(responses.Keys, questions);
    }
  }
}

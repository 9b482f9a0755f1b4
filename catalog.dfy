/**
 * The subject/question catalog service of the admin backend (src/Admin/app.py).
 *
 * The document store is an in-memory map from subject id to subject; each HTTP
 * handler is one atomic method of `SubjectStore` that returns the JSON reply
 * with its status code.
 */
module Catalog {
  import opened Wrappers

  /** The JSON value of an `options` field: a list of strings, or any value that is not a list. */
  datatype Options = List(items: seq<string>) | NotList

  datatype Question = Question(
    id: int,
    question: string,
    options: Options,
    correct: int,
    difficulty: string,
    explanation: string)

  /** A stored subject document; its id is the key it is stored under. */
  datatype Subject = Subject(name: string, questions: seq<Question>)

  /** A subject as `get_subjects` lists it: the document without the store's internal key. */
  datatype SubjectDoc = SubjectDoc(id: string, name: string, questions: seq<Question>)

  /** The JSON body of `POST /api/subjects`; `None` is an absent key. */
  datatype SubjectPayload = SubjectPayload(id: Option<string>, name: Option<string>)

  /** The JSON body of the question routes; `None` is an absent key. */
  datatype QuestionPayload = QuestionPayload(
    question: Option<string>,
    options: Option<Options>,
    correct: Option<int>,
    difficulty: Option<string>,
    explanation: Option<string>)

  /** A handler's reply: status 200 with a message, or an error status with an error text. */
  datatype Reply = Ok(message: string) | Fail(status: int, error: string)

  /** The reply of `get_questions`. */
  datatype Listing = Found(questions: seq<Question>) | Missing(status: int, error: string)

  const BadRequest := 400
  const NotFound := 404

  // ---------------------------------------------------------------- question lists

  predicate HasId(qs: seq<Question>, id: int) {
    exists k :: 0 <= k < |qs| && qs[k].id == id
  }

  /** Question ids are unique within their subject. */
  predicate DistinctIds(qs: seq<Question>) {
    forall i, j :: 0 <= i < j < |qs| ==> qs[i].id != qs[j].id
  }

  /** The largest id in a non-empty question list (Python's `max(q["id"] for q in qs)`). */
  function MaxId(qs: seq<Question>): (m: int)
    requires qs != []
    ensures forall k :: 0 <= k < |qs| ==> qs[k].id <= m
    ensures HasId(qs, m)
  {
    if |qs| == 1 then qs[0].id
    else
      var rest := MaxId(qs[1..]);
      assert qs[1..][0] == qs[1];
      if qs[0].id >= rest then qs[0].id else rest
  }

  /** The id `add_question` assigns: 1 for an empty subject, otherwise one more than the largest id. */
  function NextId(qs: seq<Question>): (n: int)
    ensures forall k :: 0 <= k < |qs| ==> qs[k].id < n
    ensures qs == [] ==> n == 1
    ensures qs != [] ==> HasId(qs, n - 1)
  {
    if qs == [] then 1 else MaxId(qs) + 1
  }

  /** `not data.get("question")`: an absent or empty question text. */
  predicate Falsy(s: Option<string>) {
    s.None? || s.value == ""
  }

  /** The validation of `add_question`: a non-empty question, and `options` a list when present. */
  predicate AcceptableQuestion(p: QuestionPayload)
    ensures AcceptableQuestion(p) <==>
              p.question.Some? && p.question.value != "" && (p.options.None? || p.options.value.List?)
  {
    !Falsy(p.question) && p.options.GetOr(List([])).List?
  }

  /** The question document `add_question` builds, with the defaults for absent fields. */
  function NewQuestion(id: int, p: QuestionPayload): (q: Question)
    requires p.question.Some?
    ensures q.id == id && q.question == p.question.value
    ensures q.options == (if p.options.Some? then p.options.value else List([]))
    ensures q.correct == (if p.correct.Some? then p.correct.value else 0)
    ensures q.difficulty == (if p.difficulty.Some? then p.difficulty.value else "easy")
    ensures q.explanation == (if p.explanation.Some? then p.explanation.value else "")
  {
    Question(id, p.question.value, p.options.GetOr(List([])), p.correct.GetOr(0),
             p.difficulty.GetOr("easy"), p.explanation.GetOr(""))
  }

  /** The partial merge of `edit_question`: each field the payload supplies replaces the stored one. */
  function Merge(q: Question, p: QuestionPayload): (r: Question)
    ensures r.id == q.id
    ensures r.question == (if p.question.Some? then p.question.value else q.question)
    ensures r.options == (if p.options.Some? then p.options.value else q.options)
    ensures r.correct == (if p.correct.Some? then p.correct.value else q.correct)
    ensures r.difficulty == (if p.difficulty.Some? then p.difficulty.value else q.difficulty)
    ensures r.explanation == (if p.explanation.Some? then p.explanation.value else q.explanation)
  {
    Question(q.id, p.question.GetOr(q.question), p.options.GetOr(q.options),
             p.correct.GetOr(q.correct), p.difficulty.GetOr(q.difficulty),
             p.explanation.GetOr(q.explanation))
  }

  /** Two payloads applied one after the other: the later one wins where both supply a field. */
  function Overlay(first: QuestionPayload, second: QuestionPayload): QuestionPayload {
    QuestionPayload(
      if second.question.Some? then second.question else first.question,
      if second.options.Some? then second.options else first.options,
      if second.correct.Some? then second.correct else first.correct,
      if second.difficulty.Some? then second.difficulty else first.difficulty,
      if second.explanation.Some? then second.explanation else first.explanation)
  }

  const NoChanges := QuestionPayload(None, None, None, None, None)

  /** The position of the first question with the given id, if any. */
  function FirstMatch(qs: seq<Question>, id: int): (r: Option<nat>)
    ensures r.Some? ==> r.value < |qs| && qs[r.value].id == id
    ensures r.Some? ==> forall k :: 0 <= k < r.value ==> qs[k].id != id
    ensures r.None? <==> !HasId(qs, id)
  {
    if qs == [] then None
    else if qs[0].id == id then Some(0)
    else
      match FirstMatch(qs[1..], id)
      case None => None
      case Some(k) => Some(k + 1)
  }

  /** The list comprehension of `delete_question`: every question whose id differs. */
  function Without(qs: seq<Question>, id: int): (r: seq<Question>)
    ensures forall q :: q in r <==> q in qs && q.id != id
    ensures |r| <= |qs|
    ensures |r| == |qs| <==> !HasId(qs, id)
  {
    if qs == [] then []
    else
      var rest := Without(qs[1..], id);
      assert forall q :: q in qs <==> q == qs[0] || q in qs[1..];
      assert HasId(qs, id) <==> qs[0].id == id || HasId(qs[1..], id) by {
        if HasId(qs[1..], id) {
          var k :| 0 <= k < |qs[1..]| && qs[1..][k].id == id;
          assert qs[k + 1].id == id;
        }
      }
      if qs[0].id == id then rest else [qs[0]] + rest
  }

  // ---------------------------------------------------------------- properties

  /** Appending a question with the next id keeps the subject's ids distinct. */
  lemma NextIdKeepsDistinct(qs: seq<Question>, p: QuestionPayload)
    requires DistinctIds(qs) && p.question.Some?
    ensures DistinctIds(qs + [NewQuestion(NextId(qs), p)])
  {
  }

  /** The merge never changes a question's id. */
  lemma MergeKeepsId(q: Question, p: QuestionPayload)
    ensures Merge(q, p).id == q.id
  {
  }

  /** An edit with an empty payload changes nothing. */
  lemma MergeNothing(q: Question)
    ensures Merge(q, NoChanges) == q
  {
  }

  /** Two successive edits equal one edit with the overlaid payloads. */
  lemma MergeTwice(q: Question, first: QuestionPayload, second: QuestionPayload)
    ensures Merge(Merge(q, first), second) == Merge(q, Overlay(first, second))
  {
  }

  /** Replacing one question by its merge keeps the subject's ids distinct. */
  lemma EditKeepsDistinct(qs: seq<Question>, k: nat, p: QuestionPayload)
    requires DistinctIds(qs) && k < |qs|
    ensures DistinctIds(qs[k := Merge(qs[k], p)])
  {
  }

  /** The filter distributes over concatenation, so it keeps the survivors in their order. */
  lemma {:induction false} WithoutConcat(a: seq<Question>, b: seq<Question>, id: int)
    ensures Without(a + b, id) == Without(a, id) + Without(b, id)
  {
    if a == [] {
      assert a + b == b;
    } else {
      assert (a + b)[1..] == a[1..] + b;
      WithoutConcat(a[1..], b, id);
    }
  }

  /** Deleting keeps the remaining ids distinct. */
  lemma {:induction false} WithoutKeepsDistinct(qs: seq<Question>, id: int)
    requires DistinctIds(qs)
    ensures DistinctIds(Without(qs, id))
  {
    if qs != [] {
      WithoutKeepsDistinct(qs[1..], id);
      var rest := Without(qs[1..], id);
      forall k | 0 <= k < |rest|
        ensures rest[k].id != qs[0].id
      {
        assert rest[k] in qs[1..];
      }
    }
  }

  /** With distinct ids, deleting an existing id removes exactly one question. */
  lemma {:induction false} WithoutRemovesOne(qs: seq<Question>, id: int)
    requires DistinctIds(qs) && HasId(qs, id)
    ensures |Without(qs, id)| == |qs| - 1
  {
    if qs[0].id == id {
      assert !HasId(qs[1..], id);
    } else {
      var k :| 0 <= k < |qs| && qs[k].id == id;
      assert qs[1..][k - 1].id == id;
      WithoutRemovesOne(qs[1..], id);
    }
  }

  // ---------------------------------------------------------------- the store

  /** The subject stored under `id`, or the placeholder `add_question` auto-creates. */
  function StoredOrPlaceholder(subjects: map<string, Subject>, id: string): (s: Subject)
    ensures id in subjects ==> s == subjects[id]
    ensures id !in subjects ==> s.name == "Subject " + id && s.questions == []
  {
    if id in subjects then subjects[id] else Subject("Subject " + id, [])
  }

  class SubjectStore {
    var subjects: map<string, Subject>

    /** Every subject's question ids are pairwise distinct. */
    ghost predicate Valid()
      reads this
    {
      forall id :: id in subjects ==> DistinctIds(subjects[id].questions)
    }

    constructor ()
      ensures subjects == map[] && Valid()
    {
      subjects := map[];
    }

    /** `GET /api/subjects`: every stored subject, once each, without the store's key. */
    method GetSubjects() returns (docs: seq<SubjectDoc>)
      ensures |docs| == |subjects|
      ensures forall k :: 0 <= k < |docs| ==>
                docs[k].id in subjects && subjects[docs[k].id] == Subject(docs[k].name, docs[k].questions)
      ensures forall id :: id in subjects ==> exists k :: 0 <= k < |docs| && docs[k].id == id
      ensures forall i, j :: 0 <= i < j < |docs| ==> docs[i].id != docs[j].id
    {
      docs := [];
      var left := subjects.Keys;
      while left != {}
        invariant left <= subjects.Keys
        invariant |docs| + |left| == |subjects.Keys|
        invariant forall k :: 0 <= k < |docs| ==>
                    docs[k].id in subjects.Keys - left
                    && subjects[docs[k].id] == Subject(docs[k].name, docs[k].questions)
        invariant forall id :: id in subjects.Keys - left ==> exists k :: 0 <= k < |docs| && docs[k].id == id
        invariant forall i, j :: 0 <= i < j < |docs| ==> docs[i].id != docs[j].id
        decreases left
      {
        var id :| id in left;
        ghost var listed, pending := docs, left;
        docs := docs + [SubjectDoc(id, subjects[id].name, subjects[id].questions)];
        left := left - {id};
        forall x | x in subjects.Keys - left
          ensures exists k :: 0 <= k < |docs| && docs[k].id == x
        {
          if x == id {
            assert docs[|docs| - 1].id == x;
          } else {
            assert x in subjects.Keys - pending;
            var k :| 0 <= k < |listed| && listed[k].id == x;
            assert docs[k].id == x;
          }
        }
      }
      assert subjects.Keys - left == subjects.Keys;
    }

    /** `POST /api/subjects`. */
    method AddSubject(p: SubjectPayload) returns (reply: Reply)
      modifies this
      ensures p.id.None? || p.name.None? ==>
                reply == Fail(BadRequest, "id and name required") && subjects == old(subjects)
      ensures p.id.Some? && p.name.Some? && p.id.value in old(subjects) ==>
                reply == Fail(BadRequest, "Subject already exists") && subjects == old(subjects)
      ensures p.id.Some? && p.name.Some? && p.id.value !in old(subjects) ==>
                reply == Ok("Subject added successfully")
                && subjects == old(subjects)[p.id.value := Subject(p.name.value, [])]
      ensures old(Valid()) ==> Valid()
    {
      if p.id.None? || p.name.None? {
        return Fail(BadRequest, "id and name required");
      }
      if p.id.value in subjects {
        return Fail(BadRequest, "Subject already exists");
      }
      subjects := subjects[p.id.value := Subject(p.name.value, [])];
      reply := Ok("Subject added successfully");
    }

    /** `POST /api/subjects/{subjectId}/questions`. */
    method AddQuestion(subjectId: string, p: QuestionPayload) returns (reply: Reply)
      modifies this
      ensures !AcceptableQuestion(p) ==>
                reply == Fail(BadRequest, "Invalid question data") && subjects == old(subjects)
      ensures AcceptableQuestion(p) ==>
                var before := StoredOrPlaceholder(old(subjects), subjectId);
                reply == Ok("Question added successfully")
                && subjects == old(subjects)[subjectId := Subject(before.name,
                     before.questions + [NewQuestion(NextId(before.questions), p)])]
      ensures old(Valid()) ==> Valid()
    {
      if Falsy(p.question) || !p.options.GetOr(List([])).List? {
        return Fail(BadRequest, "Invalid question data");
      }
      if subjectId !in subjects {
        subjects := subjects[subjectId := Subject("Subject " + subjectId, [])];
      }
      var subject := subjects[subjectId];
      var newId := 1;
      if subject.questions != [] {
        newId := MaxId(subject.questions) + 1;
      }
      var question := NewQuestion(newId, p);
      if DistinctIds(subject.questions) {
        NextIdKeepsDistinct(subject.questions, p);
      }
      subjects := subjects[subjectId := Subject(subject.name, subject.questions + [question])];
      reply := Ok("Question added successfully");
    }

    /** `GET /api/subjects/{subjectId}/questions`. */
    method GetQuestions(subjectId: string) returns (r: Listing)
      ensures subjectId !in subjects ==> r == Missing(NotFound, "Subject not found")
      ensures subjectId in subjects ==> r == Found(subjects[subjectId].questions)
    {
      if subjectId !in subjects {
        return Missing(NotFound, "Subject not found");
      }
      r := Found(subjects[subjectId].questions);
    }

    /** `PUT /api/subjects/{subjectId}/questions/{questionId}`: merge the payload into the first match. */
    method EditQuestion(subjectId: string, questionId: int, p: QuestionPayload) returns (reply: Reply)
      modifies this
      ensures subjectId !in old(subjects) ==>
                reply == Fail(NotFound, "Subject not found") && subjects == old(subjects)
      ensures subjectId in old(subjects) && !HasId(old(subjects)[subjectId].questions, questionId) ==>
                reply == Fail(NotFound, "Question not found") && subjects == old(subjects)
      ensures subjectId in old(subjects) && HasId(old(subjects)[subjectId].questions, questionId) ==>
                var before := old(subjects)[subjectId];
                var k := FirstMatch(before.questions, questionId).value;
                reply == Ok("Question updated successfully")
                && subjects == old(subjects)[subjectId := Subject(before.name,
                     before.questions[k := Merge(before.questions[k], p)])]
      ensures old(Valid()) ==> Valid()
    {
      if subjectId !in subjects {
        return Fail(NotFound, "Subject not found");
      }
      var subject := subjects[subjectId];
      var questionList := subject.questions;
      var k := 0;
      while k < |questionList| && questionList[k].id != questionId
        invariant 0 <= k <= |questionList|
        invariant forall j :: 0 <= j < k ==> questionList[j].id != questionId
      {
        k := k + 1;
      }
      if k == |questionList| {
        return Fail(NotFound, "Question not found");
      }
      assert FirstMatch(questionList, questionId) == Some(k);
      if DistinctIds(questionList) {
        EditKeepsDistinct(questionList, k, p);
      }
      questionList := questionList[k := Merge(questionList[k], p)];
      subjects := subjects[subjectId := Subject(subject.name, questionList)];
      reply := Ok("Question updated successfully");
    }

    /** `DELETE /api/subjects/{subjectId}/questions/{questionId}`: drop every question with that id. */
    method DeleteQuestion(subjectId: string, questionId: int) returns (reply: Reply)
      modifies this
      ensures subjectId !in old(subjects) ==>
                reply == Fail(NotFound, "Subject not found") && subjects == old(subjects)
      ensures subjectId in old(subjects) && !HasId(old(subjects)[subjectId].questions, questionId) ==>
                reply == Fail(NotFound, "Question not found") && subjects == old(subjects)
      ensures subjectId in old(subjects) && HasId(old(subjects)[subjectId].questions, questionId) ==>
                var before := old(subjects)[subjectId];
                reply == Ok("Question deleted successfully")
                && subjects == old(subjects)[subjectId := Subject(before.name, Without(before.questions, questionId))]
      ensures old(Valid()) ==> Valid()
    {
      if subjectId !in subjects {
        return Fail(NotFound, "Subject not found");
      }
      var subject := subjects[subjectId];
      var updated := Without(subject.questions, questionId);
      if |updated| == |subject.questions| {
        return Fail(NotFound, "Question not found");
      }
      if DistinctIds(subject.questions) {
        WithoutKeepsDistinct(subject.questions, questionId);
      }
      subjects := subjects[subjectId := Subject(subject.name, updated)];
      reply := Ok("Question deleted successfully");
    }
  }
}

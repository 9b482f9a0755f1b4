/**
 * The flashcard session around the review queue (src/Flashcard/Flashcard.jsx):
 * choosing the session's cards, shuffling them, and keeping score and streak
 * as answers are marked.
 */
module StudySession {
  import opened Wrappers
  import opened ReviewQueue

  // ---------------------------------------------------------------- answers

  /** One line of `questionHistory`. */
  datatype Attempt = Attempt(card: Card, isCorrect: bool, usedHint: bool, timeSpent: int)

  /** The countdown every card starts from, in seconds. */
  const CardSeconds := 300

  /** The number of correct answers in a history. */
  function CorrectCount(history: seq<Attempt>): nat {
    if history == [] then 0
    else CorrectCount(history[..|history| - 1]) + (if history[|history| - 1].isCorrect then 1 else 0)
  }

  /** The length of the run of correct answers that ends the history. */
  function CurrentRun(history: seq<Attempt>): nat {
    if history == [] || !history[|history| - 1].isCorrect then 0
    else CurrentRun(history[..|history| - 1]) + 1
  }

  /** The streak never exceeds the score, and the score never exceeds the number of answers. */
  lemma {:induction false} RunWithinScore(history: seq<Attempt>)
    ensures CurrentRun(history) <= CorrectCount(history) <= |history|
  {
    if history != [] {
      RunWithinScore(history[..|history| - 1]);
    }
  }

  /** A history that ends in a correct answer has a streak of at least one. */
  lemma CorrectLastMeansRun(history: seq<Attempt>)
    requires history != [] && history[|history| - 1].isCorrect
    ensures CurrentRun(history) >= 1 && CorrectCount(history) >= 1
  {
  }

  class Session {
    var score: nat
    var streak: nat
    var history: seq<Attempt>
    var queue: seq<Entry>

    /** The score counts the correct answers; the streak is the trailing run of them. */
    ghost predicate Valid()
      reads this
    {
      score == CorrectCount(history) && streak == CurrentRun(history)
    }

    constructor ()
      ensures score == 0 && streak == 0 && history == [] && queue == []
      ensures Valid()
    {
      score, streak, history, queue := 0, 0, [], [];
    }

    /** `handleMarkCorrect`, up to the move to the next card. */
    method MarkCorrect(card: Card, usedHint: bool, timeLeft: int, now: int)
      modifies this
      ensures score == old(score) + 1 && streak == old(streak) + 1
      ensures history == old(history) + [Attempt(card, true, usedHint, CardSeconds - timeLeft)]
      ensures queue == Enqueue(old(queue), card, true, now)
      ensures old(Valid()) ==> Valid()
    {
      var attempt := Attempt(card, true, usedHint, CardSeconds - timeLeft);
      assert (history + [attempt])[..|history|] == history;
      history := history + [attempt];
      score := score + 1;
      streak := streak + 1;
      queue := Enqueue(queue, card, true, now);
    }

    /** `handleMarkIncorrect`, up to the move to the next card. */
    method MarkIncorrect(card: Card, usedHint: bool, timeLeft: int, now: int)
      modifies this
      ensures score == old(score) && streak == 0
      ensures history == old(history) + [Attempt(card, false, usedHint, CardSeconds - timeLeft)]
      ensures queue == Enqueue(old(queue), card, false, now)
      ensures old(Valid()) ==> Valid()
    {
      var attempt := Attempt(card, false, usedHint, CardSeconds - timeLeft);
      assert (history + [attempt])[..|history|] == history;
      history := history + [attempt];
      streak := 0;
      queue := Enqueue(queue, card, false, now);
    }
  }

  // ---------------------------------------------------------------- shuffling

  /** The destructuring swap `[a[i], a[j]] = [a[j], a[i]]`. */
  method Swap<T>(a: array<T>, i: int, j: int)
    requires 0 <= i < a.Length && 0 <= j < a.Length
    modifies a
    ensures a[..] == old(a[..])[i := old(a[j])][j := old(a[i])]
    ensures multiset(a[..]) == multiset(old(a[..]))
  {
    a[i], a[j] := a[j], a[i];
  }

  /**
   * `shuffleArray`: Fisher-Yates on a copy of the input. Each `j` is an
   * arbitrary index in `[0, i]`, standing for `Math.floor(Math.random() * (i + 1))`.
   */
  method Shuffle<T>(items: seq<T>) returns (shuffled: seq<T>)
    ensures |shuffled| == |items|
    ensures multiset(shuffled) == multiset(items)
  {
    var a := new T[|items|](k requires 0 <= k < |items| => items[k]);
    assert a[..] == items;
    var i := a.Length - 1;
    while i > 0
      invariant i < a.Length
      invariant multiset(a[..]) == multiset(items)
    {
      var j :| 0 <= j <= i;
      Swap(a, i, j);
      i := i - 1;
    }
    shuffled := a[..];
  }

  // ---------------------------------------------------------------- session selection

  /** A subject of the bundled question data. */
  datatype DataSubject = DataSubject(id: string, questions: seq<Card>)

  /** `subjectsData.subjects.flatMap(s => s.questions)`. */
  function AllCards(data: seq<DataSubject>): (cards: seq<Card>)
    ensures forall c :: c in cards <==> exists s :: s in data && c in s.questions
  {
    if data == [] then []
    else
      var rest := AllCards(data[1..]);
      assert forall s :: s in data <==> s == data[0] || s in data[1..];
      data[0].questions + rest
  }

  /** The cards of a list of subjects are their lists one after the other, in order. */
  lemma {:induction false} AllCardsConcat(a: seq<DataSubject>, b: seq<DataSubject>)
    ensures AllCards(a + b) == AllCards(a) + AllCards(b)
  {
    if a == [] {
      assert a + b == b;
    } else {
      assert (a + b)[1..] == a[1..] + b;
      AllCardsConcat(a[1..], b);
    }
  }

  /** `cards.filter(q => q.difficulty === level)`. */
  function WithDifficulty(cards: seq<Card>, level: string): (r: seq<Card>)
    ensures forall c :: multiset(r)[c] == if DifficultyName(c.difficulty) == level then multiset(cards)[c] else 0
  {
    if cards == [] then []
    else
      var rest := WithDifficulty(cards[1..], level);
      assert cards == [cards[0]] + cards[1..];
      if DifficultyName(cards[0].difficulty) == level then [cards[0]] + rest else rest
  }

  /** The filter keeps every matching card and only those, which is membership both ways. */
  lemma WithDifficultyMembers(cards: seq<Card>, level: string)
    ensures forall c :: c in WithDifficulty(cards, level) <==> c in cards && DifficultyName(c.difficulty) == level
    ensures multiset(WithDifficulty(cards, level)) <= multiset(cards)
  {
    var r := WithDifficulty(cards, level);
    forall c
      ensures c in r <==> c in cards && DifficultyName(c.difficulty) == level
    {
      assert c in r <==> multiset(r)[c] > 0;
      assert c in cards <==> multiset(cards)[c] > 0;
    }
  }

  /** The filter distributes over concatenation, so the kept cards stay in their order. */
  lemma {:induction false} WithDifficultyConcat(a: seq<Card>, b: seq<Card>, level: string)
    ensures WithDifficulty(a + b, level) == WithDifficulty(a, level) + WithDifficulty(b, level)
  {
    if a == [] {
      assert a + b == b;
    } else {
      assert (a + b)[1..] == a[1..] + b;
      WithDifficultyConcat(a[1..], b, level);
    }
  }

  /** `subjectsData.subjects.find(s => s.id === id)`: the first subject with the id. */
  function FindSubject(data: seq<DataSubject>, id: string): (r: Option<DataSubject>)
    ensures r.Some? ==> exists i :: 0 <= i < |data| && data[i] == r.value && r.value.id == id
                                    && forall k :: 0 <= k < i ==> data[k].id != id
    ensures r.None? <==> forall s :: s in data ==> s.id != id
  {
    if data == [] then None
    else if data[0].id == id then Some(data[0])
    else
      var rest := FindSubject(data[1..], id);
      assert forall s :: s in data <==> s == data[0] || s in data[1..];
      if rest.Some? then
        var i :| 0 <= i < |data[1..]| && data[1..][i] == rest.value && rest.value.id == id
                 && forall k :: 0 <= k < i ==> data[1..][k].id != id;
        assert data[i + 1] == rest.value;
        assert forall k :: 0 <= k < i + 1 ==> data[k].id != id by {
          forall k | 0 <= k < i + 1
            ensures data[k].id != id
          {
            if k > 0 {
              assert data[k] == data[1..][k - 1];
            }
          }
        }
        rest
      else
        rest
  }

  /** The smaller of two counts. */
  function Min(a: nat, b: nat): nat {
    if a <= b then a else b
  }

  /** `cards.slice(0, n)`: the first `n` cards, or all of them when there are fewer. */
  function Take(cards: seq<Card>, n: nat): (r: seq<Card>)
    ensures |r| == Min(n, |cards|)
    ensures r == cards[..|r|]
    ensures multiset(r) <= multiset(cards)
  {
    if |cards| <= n then cards
    else
      assert cards == cards[..n] + cards[n..];
      cards[..n]
  }

  /** Every card in `cards` has the named difficulty. */
  predicate AllAt(cards: seq<Card>, level: string) {
    forall c :: c in cards ==> DifficultyName(c.difficulty) == level
  }

  /** Taking some of the cards of a list keeps them at the list's difficulty. */
  lemma AllAtSubset(part: seq<Card>, whole: seq<Card>, level: string)
    requires multiset(part) <= multiset(whole) && AllAt(whole, level)
    ensures AllAt(part, level)
  {
    forall c | c in part
      ensures DifficultyName(c.difficulty) == level
    {
      assert c in multiset(part);
    }
  }

  /** `difficulty && difficulty !== skip`: a difficulty filter applies. */
  predicate Filters(difficulty: string, skip: string) {
    difficulty != "" && difficulty != skip
  }

  /** The cards a list offers at a difficulty: all of them, or the filtered ones when the filter applies. */
  function Pool(cards: seq<Card>, difficulty: string, skip: string): (r: seq<Card>)
    ensures multiset(r) <= multiset(cards)
    ensures Filters(difficulty, skip) ==> AllAt(r, difficulty)
    ensures !Filters(difficulty, skip) ==> r == cards
    ensures Filters(difficulty, skip) ==>
              forall c :: multiset(r)[c] == if DifficultyName(c.difficulty) == difficulty then multiset(cards)[c] else 0
  {
    if Filters(difficulty, skip) then
      WithDifficultyMembers(cards, difficulty);
      WithDifficulty(cards, difficulty)
    else cards
  }

  /** `questionLimit || 5`, with 0 standing for an unset limit. */
  function TrialLimit(questionLimit: nat): nat {
    if questionLimit == 0 then 5 else questionLimit
  }

  /**
   * Free trial: all cards, filtered unless "mixed", shuffled, then the first
   * `questionLimit` (5 when unset): as many as the limit allows and the pool holds.
   */
  method FreeTrialCards(data: seq<DataSubject>, difficulty: string, questionLimit: nat)
    returns (selected: seq<Card>)
    ensures |selected| == Min(TrialLimit(questionLimit), |Pool(AllCards(data), difficulty, "mixed")|)
    ensures multiset(selected) <= multiset(Pool(AllCards(data), difficulty, "mixed"))
    ensures Filters(difficulty, "mixed") ==> AllAt(selected, difficulty)
  {
    var filtered := Pool(AllCards(data), difficulty, "mixed");
    var shuffled := Shuffle(filtered);
    selected := Take(shuffled, TrialLimit(questionLimit));
    if Filters(difficulty, "mixed") {
      AllAtSubset(selected, filtered, difficulty);
    }
  }

  /** Challenge: all cards shuffled, then the first 15, of any difficulty. */
  method ChallengeCards(data: seq<DataSubject>) returns (selected: seq<Card>)
    ensures |selected| == Min(15, |AllCards(data)|)
    ensures multiset(selected) <= multiset(AllCards(data))
  {
    var shuffled := Shuffle(AllCards(data));
    selected := Take(shuffled, 15);
  }

  /** One subject: the first subject with the id, its cards filtered unless "all", shuffled; none for an unknown subject. */
  method SubjectCards(data: seq<DataSubject>, subject: string, difficulty: string)
    returns (selected: seq<Card>)
    ensures FindSubject(data, subject).None? ==> selected == []
    ensures FindSubject(data, subject).Some? ==>
              multiset(selected) == multiset(Pool(FindSubject(data, subject).value.questions, difficulty, "all"))
    ensures Filters(difficulty, "all") ==> AllAt(selected, difficulty)
  {
    selected := [];
    var found := FindSubject(data, subject);
    if found.Some? {
      var filtered := Pool(found.value.questions, difficulty, "all");
      selected := Shuffle(filtered);
      if Filters(difficulty, "all") {
        AllAtSubset(selected, filtered, difficulty);
      }
    }
  }

  /**
   * Mixed: all cards filtered unless "all", then the first 10 of that list,
   * shuffled: always the same cards, only their order varies.
   */
  method MixedCards(data: seq<DataSubject>, difficulty: string) returns (selected: seq<Card>)
    ensures multiset(selected) == multiset(Take(Pool(AllCards(data), difficulty, "all"), 10))
    ensures |selected| == Min(10, |Pool(AllCards(data), difficulty, "all")|)
    ensures multiset(selected) <= multiset(AllCards(data))
    ensures Filters(difficulty, "all") ==> AllAt(selected, difficulty)
  {
    var allQuestions := Pool(AllCards(data), difficulty, "all");
    var first := Take(allQuestions, 10);
    selected := Shuffle(first);
    if Filters(difficulty, "all") {
      AllAtSubset(first, allQuestions, difficulty);
      AllAtSubset(selected, first, difficulty);
    }
  }

  /**
   * The session-selection effect. Strings stand for the navigation state; an
   * empty string is an absent (falsy) value, and a `questionLimit` of 0 is an
   * absent one, which `questionLimit || 5` treats alike.
   */
  method SelectSession(data: seq<DataSubject>, mode: string, subject: string, difficulty: string,
                       questionLimit: nat) returns (selected: seq<Card>)
    ensures mode == "free_trial" ==>
              |selected| == Min(TrialLimit(questionLimit), |Pool(AllCards(data), difficulty, "mixed")|)
              && multiset(selected) <= multiset(Pool(AllCards(data), difficulty, "mixed"))
    ensures mode == "challenge" ==>
              |selected| == Min(15, |AllCards(data)|) && multiset(selected) <= multiset(AllCards(data))
    ensures mode != "free_trial" && mode != "challenge" && subject != "" && subject != "mixed" ==>
              if FindSubject(data, subject).None? then selected == []
              else multiset(selected) == multiset(Pool(FindSubject(data, subject).value.questions, difficulty, "all"))
    ensures mode != "free_trial" && mode != "challenge" && (subject == "" || subject == "mixed") ==>
              multiset(selected) == multiset(Take(Pool(AllCards(data), difficulty, "all"), 10))
    ensures mode == "free_trial" && Filters(difficulty, "mixed") ==> AllAt(selected, difficulty)
    ensures mode != "free_trial" && mode != "challenge" && Filters(difficulty, "all") ==> AllAt(selected, difficulty)
  {
    if mode == "free_trial" {
      selected := FreeTrialCards(data, difficulty, questionLimit);
    } else if mode == "challenge" {
      selected := ChallengeCards(data);
    } else if subject != "" && subject != "mixed" {
      selected := SubjectCards(data, subject, difficulty);
    } else {
      selected := MixedCards(data, difficulty);
    }
  }
}

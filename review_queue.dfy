/**
 * The spaced-repetition review queue of the flashcard session
 * (src/Flashcard/Flashcard.jsx): an answered card is queued with a countdown,
 * every answer advances all countdowns, and a card whose countdown has run out
 * is shown again before the session's next card.
 */
module ReviewQueue {
  import opened Wrappers

  datatype Difficulty = Easy | Medium | Hard

  /** The difficulty as the question data spells it. */
  function DifficultyName(d: Difficulty): string {
    match d
    case Easy => "easy"
    case Medium => "medium"
    case Hard => "hard"
  }

  /** A flashcard of the session. */
  datatype Card = Card(id: int, difficulty: Difficulty, question: string)

  /** A queued card: it is due again once `currentCount` reaches `reappearAfter`. */
  datatype Entry = Entry(card: Card, reappearAfter: nat, currentCount: nat, isCorrect: bool, addedAt: int)

  /** What `getNextQuestion` yields: the card to show next (if any) and the queue left behind. */
  datatype Pick = Pick(next: Option<Card>, queue: seq<Entry>)

  /** How many answers later a card comes back (`SPACED_REPETITION_CONFIG`). */
  function Interval(isCorrect: bool, d: Difficulty): (n: nat)
    ensures isCorrect ==> 30 <= n <= 40
    ensures !isCorrect ==> 8 <= n <= 12
  {
    match (isCorrect, d)
    case (true, Easy) => 40
    case (true, Medium) => 35
    case (true, Hard) => 30
    case (false, Easy) => 8
    case (false, Medium) => 10
    case (false, Hard) => 12
  }

  function Rank(d: Difficulty): nat {
    match d
    case Easy => 0
    case Medium => 1
    case Hard => 2
  }

  /**
   * A harder card comes back sooner after a correct answer and later after a
   * wrong one, and any card answered wrongly comes back before any card answered
   * correctly.
   */
  lemma IntervalOrdering(d: Difficulty, e: Difficulty)
    ensures Rank(d) < Rank(e) ==> Interval(true, d) > Interval(true, e)
    ensures Rank(d) < Rank(e) ==> Interval(false, d) < Interval(false, e)
    ensures Interval(false, d) < Interval(true, e)
  {
  }

  predicate Ready(e: Entry) {
    e.currentCount >= e.reappearAfter
  }

  /** `addToSpacedRepetition`: queue the answered card at the end with a fresh countdown. */
  function Enqueue(queue: seq<Entry>, card: Card, isCorrect: bool, now: int): (r: seq<Entry>)
    ensures |r| == |queue| + 1 && r[..|queue|] == queue
    ensures r[|queue|].card == card && r[|queue|].isCorrect == isCorrect && r[|queue|].addedAt == now
    ensures r[|queue|].currentCount == 0
    ensures r[|queue|].reappearAfter == Interval(isCorrect, card.difficulty)
  {
    queue + [Entry(card, Interval(isCorrect, card.difficulty), 0, isCorrect, now)]
  }

  /** `updateSpacedRepetitionCounts`: one more answer has been given since each entry was queued. */
  function Tick(queue: seq<Entry>): (r: seq<Entry>)
    ensures |r| == |queue|
    ensures forall k :: 0 <= k < |r| ==> r[k].currentCount == queue[k].currentCount + 1
    ensures forall k :: 0 <= k < |r| ==> r[k] == queue[k].(currentCount := r[k].currentCount)
  {
    seq(|queue|, k requires 0 <= k < |queue| => queue[k].(currentCount := queue[k].currentCount + 1))
  }

  /** The queue after `n` answers. */
  function Ticks(queue: seq<Entry>, n: nat): seq<Entry> {
    if n == 0 then queue else Tick(Ticks(queue, n - 1))
  }

  lemma {:induction false} TicksAt(queue: seq<Entry>, n: nat, k: nat)
    requires k < |queue|
    ensures |Ticks(queue, n)| == |queue|
    ensures Ticks(queue, n)[k] == queue[k].(currentCount := queue[k].currentCount + n)
  {
    if n > 0 {
      TicksAt(queue, n - 1, k);
    }
  }

  /** A card queued with interval `Interval(isCorrect, d)` is due exactly from that many answers on. */
  lemma DueAfterInterval(queue: seq<Entry>, card: Card, isCorrect: bool, now: int, n: nat)
    ensures |Ticks(Enqueue(queue, card, isCorrect, now), n)| == |queue| + 1
    ensures Ready(Ticks(Enqueue(queue, card, isCorrect, now), n)[|queue|])
        <==> n >= Interval(isCorrect, card.difficulty)
  {
    TicksAt(Enqueue(queue, card, isCorrect, now), n, |queue|);
  }

  /** The position of the first due entry in queue order. */
  function FirstReady(queue: seq<Entry>): (r: Option<nat>)
    ensures r.Some? ==> r.value < |queue| && Ready(queue[r.value])
    ensures r.Some? ==> forall k :: 0 <= k < r.value ==> !Ready(queue[k])
    ensures r.None? ==> forall k :: 0 <= k < |queue| ==> !Ready(queue[k])
  {
    if queue == [] then None
    else if Ready(queue[0]) then Some(0)
    else
      match FirstReady(queue[1..])
      case None => None
      case Some(k) => Some(k + 1)
  }

  /**
   * `getNextQuestion`: the first due entry wins and leaves the queue; otherwise
   * the session card after `index`, if there is one, with the queue untouched.
   */
  function NextQuestion(queue: seq<Entry>, questions: seq<Card>, index: nat): (p: Pick)
    ensures forall i :: 0 <= i < |queue| && Ready(queue[i]) && (forall k :: 0 <= k < i ==> !Ready(queue[k])) ==>
              p == Pick(Some(queue[i].card), queue[..i] + queue[i + 1..])
    ensures (forall k :: 0 <= k < |queue| ==> !Ready(queue[k])) ==>
              p == Pick(if index < |questions| - 1 then Some(questions[index + 1]) else None, queue)
  {
    match FirstReady(queue)
    case Some(i) => Pick(Some(queue[i].card), queue[..i] + queue[i + 1..])
    case None => Pick(if index < |questions| - 1 then Some(questions[index + 1]) else None, queue)
  }

  /** Taking a due card removes that one entry and keeps every other entry. */
  lemma NextQuestionRemovesOne(queue: seq<Entry>, questions: seq<Card>, index: nat, i: nat)
    requires i < |queue| && Ready(queue[i]) && forall k :: 0 <= k < i ==> !Ready(queue[k])
    ensures multiset(NextQuestion(queue, questions, index).queue) + multiset{queue[i]} == multiset(queue)
  {
    assert queue == queue[..i] + [queue[i]] + queue[i + 1..];
  }
}

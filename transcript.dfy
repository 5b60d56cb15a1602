/** How the answers submitted for one round are turned into that round's transcript text. */
module Transcript {
  import opened Decimal

  /** One submitted answer: the question index as the client sent it, and the answer text. */
  datatype Answer = Answer(questionIndex: int, text: string)

  /** What the transcript of one round is built from: the candidate's name, the round's name
      and the round's questions. */
  datatype RoundContext = RoundContext(candidateName: string, roundName: string, questions: seq<string>)

  /** The two header lines written when question 0 is answered. */
  function Header(candidateName: string, roundName: string): string
  {
    "Candidate: " + candidateName + "\nRound: " + roundName + "\n\n"
  }

  /** The question/answer pair for index `i`, labelled `i + 1`. */
  function QABlock(i: int, question: string, answer: string): string
  {
    var number := IntToString(i + 1);
    "Q" + number + ": " + question + "\nA" + number + ": " + answer + "\n\n"
  }

  /** The `Q` label of a pair: the letter and the rendered number, up to the first colon. */
  function Label(i: int): string
  {
    "Q" + IntToString(i + 1)
  }

  lemma LabelColonFree(i: int)
    ensures forall k :: 0 <= k < |Label(i)| ==> Label(i)[k] != ':'
  {
    var n := IntToString(i + 1);
    forall k | 0 < k < |Label(i)| ensures Label(i)[k] != ':' {
      assert Label(i)[k] == n[k - 1];
      if i + 1 < 0 && k > 1 { assert n[k - 1] == n[1..][k - 2]; }
    }
  }

  /** A pair starts with its label, followed by a colon. */
  lemma QABlockStartsWithLabel(i: int, q: string, x: string)
    ensures Label(i) < QABlock(i, q, x) && QABlock(i, q, x)[|Label(i)|] == ':'
  {
    var n := IntToString(i + 1);
    var rest := ": " + q + "\nA" + n + ": " + x + "\n\n";
    assert QABlock(i, q, x) == Label(i) + rest;
  }

  /** Two colon-free prefixes of one text that are each followed by a colon are equal. */
  lemma SameLabel(l1: string, l2: string, s: string)
    requires forall k :: 0 <= k < |l1| ==> l1[k] != ':'
    requires forall k :: 0 <= k < |l2| ==> l2[k] != ':'
    requires l1 < s && s[|l1|] == ':' && l2 < s && s[|l2|] == ':'
    ensures l1 == l2
  {
  }

  /** Different question indices give different question/answer pairs: the `Q` label, which
      ends at the first colon, reads back as the index plus one. */
  lemma QABlockInjective(i: int, q1: string, x1: string, j: int, q2: string, x2: string)
    requires QABlock(i, q1, x1) == QABlock(j, q2, x2)
    ensures i == j
  {
    LabelColonFree(i);
    LabelColonFree(j);
    QABlockStartsWithLabel(i, q1, x1);
    QABlockStartsWithLabel(j, q2, x2);
    SameLabel(Label(i), Label(j), QABlock(i, q1, x1));
    assert IntToString(i + 1) == Label(i)[1..] && IntToString(j + 1) == Label(j)[1..];
    IntToStringInjective(i + 1, j + 1);
  }

  /** `questions[i]` succeeds in Python: a negative index counts from the end. */
  predicate Indexable(i: int, n: nat)
  {
    -(n as int) <= i < n
  }

  /** Python's `questions[i]` for an index that succeeds. */
  function At(qs: seq<string>, i: int): (r: string)
    requires Indexable(i, |qs|)
    ensures r == qs[i % |qs|]
  {
    if i < 0 then qs[i + |qs|] else qs[i]
  }

  /** The transcript after one more answer: index 0 first resets it to the header, then an
      indexable index appends its pair; any other index leaves it as it is. */
  function Step(c: RoundContext, t: string, a: Answer): (r: string)
    ensures a.questionIndex != 0 ==> t <= r
    ensures a.questionIndex == 0 ==> Header(c.candidateName, c.roundName) <= r
    ensures a.questionIndex != 0 ==> (r == t <==> !Indexable(a.questionIndex, |c.questions|))
  {
    var start := if a.questionIndex == 0 then Header(c.candidateName, c.roundName) else t;
    if Indexable(a.questionIndex, |c.questions|) then start + QABlock(a.questionIndex, At(c.questions, a.questionIndex), a.text)
    else start
  }

  /** The transcript reached from `t` by submitting `answers` in order. */
  function ReplayFrom(c: RoundContext, t: string, answers: seq<Answer>): string
    decreases |answers|
  {
    if answers == [] then t
    else Step(c, ReplayFrom(c, t, answers[..|answers| - 1]), answers[|answers| - 1])
  }

  /** The transcript of a round whose submitted answers are `answers` (it starts empty). */
  function Replay(c: RoundContext, answers: seq<Answer>): string
  {
    ReplayFrom(c, "", answers)
  }

  /** Some submitted index reached the question list, so a pair was written. */
  predicate SomeIndexable(c: RoundContext, answers: seq<Answer>)
  {
    exists k :: 0 <= k < |answers| && Indexable(answers[k].questionIndex, |c.questions|)
  }

  /** Replaying one more answer is one more step. */
  lemma ReplaySnoc(c: RoundContext, p: seq<Answer>, a: Answer)
    ensures Replay(c, p + [a]) == Step(c, Replay(c, p), a)
  {
    assert (p + [a])[..|p|] == p;
  }

  /** Replaying two batches in turn is replaying their concatenation. */
  lemma {:induction false} ReplayFromAppend(c: RoundContext, t: string, p: seq<Answer>, q: seq<Answer>)
    ensures ReplayFrom(c, t, p + q) == ReplayFrom(c, ReplayFrom(c, t, p), q)
    decreases |q|
  {
    if q == [] {
      assert p + q == p;
    } else {
      var q' := q[..|q| - 1];
      assert (p + q)[..|p + q| - 1] == p + q';
      assert (p + q)[|p + q| - 1] == q[|q| - 1];
      ReplayFromAppend(c, t, p, q');
    }
  }

  /** Answering question 0 discards whatever the transcript held before: the result depends
      only on the answers from the last index-0 submission on (the earlier answers are
      still in the answer list, they just vanish from the transcript). */
  lemma ResetDiscardsEarlier(c: RoundContext, p: seq<Answer>, x: string, s: seq<Answer>)
    requires |c.questions| > 0
    ensures Replay(c, p + [Answer(0, x)] + s) == ReplayFrom(c, Header(c.candidateName, c.roundName) + QABlock(0, c.questions[0], x), s)
  {
    ReplayFromAppend(c, "", p + [Answer(0, x)], s);
    ReplaySnoc(c, p, Answer(0, x));
  }

  /** Corollary: two histories that agree from an index-0 submission on give the same transcript. */
  lemma ResetForgetsPrefix(c: RoundContext, p1: seq<Answer>, p2: seq<Answer>, x: string, s: seq<Answer>)
    requires |c.questions| > 0
    ensures Replay(c, p1 + [Answer(0, x)] + s) == Replay(c, p2 + [Answer(0, x)] + s)
  {
    ResetDiscardsEarlier(c, p1, x, s);
    ResetDiscardsEarlier(c, p2, x, s);
  }

  /** The transcript is non-empty exactly when some submitted index reached the question
      list; an index-1 answer alone is enough, and then the transcript has no header. */
  lemma {:induction false} ReplayNonEmpty(c: RoundContext, answers: seq<Answer>)
    requires |c.questions| > 0
    ensures Replay(c, answers) != "" <==> SomeIndexable(c, answers)
    decreases |answers|
  {
    if answers != [] {
      var init := answers[..|answers| - 1];
      var a := answers[|answers| - 1];
      ReplayNonEmpty(c, init);
      ReplaySnoc(c, init, a);
      assert answers == init + [a];
      var n := |c.questions|;
      if Indexable(a.questionIndex, n) {
        assert Indexable(answers[|answers| - 1].questionIndex, n);
      } else {
        assert Replay(c, answers) == Replay(c, init);
        if SomeIndexable(c, answers) {
          var k :| 0 <= k < |answers| && Indexable(answers[k].questionIndex, n);
          assert init[k] == answers[k];
        }
        if SomeIndexable(c, init) {
          var k :| 0 <= k < |init| && Indexable(init[k].questionIndex, n);
          assert answers[k] == init[k];
        }
      }
    }
  }

  /** Answers 0, 1, ..., k-1 submitted with the texts `texts`. */
  function InOrder(texts: seq<string>): (answers: seq<Answer>)
    ensures |answers| == |texts|
    ensures forall k :: 0 <= k < |texts| ==> answers[k] == Answer(k, texts[k])
  {
    seq(|texts|, k requires 0 <= k < |texts| => Answer(k, texts[k]))
  }

  /** The pairs for questions 0 .. |texts|-1 in ascending order. */
  function Pairs(qs: seq<string>, texts: seq<string>): string
    requires |texts| <= |qs|
    decreases |texts|
  {
    if texts == [] then ""
    else Pairs(qs, texts[..|texts| - 1]) + QABlock(|texts| - 1, qs[|texts| - 1], texts[|texts| - 1])
  }

  /** The transcript step case by case: index 0 resets to the header and appends the first
      pair, an index inside the list (a negative one counted from the end) appends its pair,
      and any other index leaves the text as it was. */
  lemma StepCases(c: RoundContext, t: string, i: int, x: string)
    requires |c.questions| > 0
    ensures var qs := c.questions;
            Step(c, t, Answer(i, x)) ==
              if i == 0 then Header(c.candidateName, c.roundName) + QABlock(0, qs[0], x)
              else if 0 < i < |qs| then t + QABlock(i, qs[i], x)
              else if -|qs| <= i < 0 then t + QABlock(i, qs[i + |qs|], x)
              else t
  {
  }

  lemma AppendAssociative(a: string, b: string, d: string)
    ensures (a + b) + d == a + (b + d)
  {
  }

  /** Answering questions 0, 1, ..., k-1 in order yields the header followed by exactly those
      k pairs, in ascending index order. */
  lemma {:induction false} InOrderTranscript(c: RoundContext, texts: seq<string>)
    requires 0 < |texts| <= |c.questions|
    ensures Replay(c, InOrder(texts)) == Header(c.candidateName, c.roundName) + Pairs(c.questions, texts)
    decreases |texts|
  {
    var k := |texts| - 1;
    var init := InOrder(texts[..k]);
    var header := Header(c.candidateName, c.roundName);
    var block := QABlock(k, c.questions[k], texts[k]);
    var earlier := Pairs(c.questions, texts[..k]);
    assert InOrder(texts) == init + [Answer(k, texts[k])];
    ReplaySnoc(c, init, Answer(k, texts[k]));
    assert Pairs(c.questions, texts) == earlier + block;
    if k == 0 {
      assert texts[..0] == [];
      StepCases(c, Replay(c, init), 0, texts[0]);
      assert earlier + block == block;
    } else {
      InOrderTranscript(c, texts[..k]);
      StepCases(c, Replay(c, init), k, texts[k]);
      AppendAssociative(header, earlier, block);
    }
  }
}

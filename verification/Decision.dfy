/**
  Task admission: the deterministic classifier, the model's probability distribution reduced to one choice, and the
  merge of the two. A map is walked in an arbitrary order of its keys, and the sum of its values is taken with a
  rounding addition: the source adds 64-bit floating-point numbers.
 */
module Decision {
  import opened Records
  import opened Text

  const OPTIONS: set<string> := {"plan", "context", "human", "reject"}

  // ---- the top two of a distribution ----

  datatype Top = Top(total: real, best: real, second: real)

  const NONE := Top(0.0, 0.0, 0.0)

  function Meet(t: Top, p: real): Top {
    if p > t.best then Top(t.total + p, p, t.best)
    else if p > t.second then Top(t.total + p, t.best, p)
    else t.(total := t.total + p)
  }

  type Distribution = map<string, real>

  type Addition = (real, real) -> real

  /**
    A commutative addition with absolute error at most `u` on the sums that occur here, and none when a term is zero.
    Doubles satisfy this with u = 2^-52.
   */
  ghost predicate Rounds(plus: Addition, u: real) {
    && 0.0 <= u <= 0.1 && (forall b :: plus(0.0, b) == b) && (forall a, b :: plus(a, b) == plus(b, a))
    && forall a, b | -1.0 <= a <= 4.0 && 0.0 <= b <= 1.0 :: -u <= plus(a, b) - (a + b) <= u
  }

  /** The sum as the loop takes it. */
  function Sum(plus: Addition, m: Distribution, order: seq<string>): real
    requires forall i | 0 <= i < |order| :: order[i] in m
  {
    if order == [] then 0.0 else plus(Sum(plus, m, order[..|order| - 1]), m[order[|order| - 1]])
  }

  function Walk(m: Distribution, order: seq<string>): Top
    requires forall i | 0 <= i < |order| :: order[i] in m
  {
    if order == [] then NONE else Meet(Walk(m, order[..|order| - 1]), m[order[|order| - 1]])
  }

  /** An order in which a map may be walked: every key once. */
  predicate Enumerates(order: seq<string>, m: Distribution) { multiset(order) == multiset(m.Keys) }

  predicate Known(m: Distribution, order: seq<string>) { forall i | 0 <= i < |order| :: order[i] in m }

  lemma EnumeratedKnown(m: Distribution, order: seq<string>)
    requires Enumerates(order, m)
    ensures Known(m, order) && forall k | k in m :: k in order
  {
    forall i | 0 <= i < |order| ensures order[i] in m { assert order[i] in multiset(order); }
    forall k | k in m ensures k in order { assert k in multiset(m.Keys); }
  }

  lemma {:induction false} WalkOrdered(m: Distribution, order: seq<string>)
    requires Known(m, order)
    ensures Walk(m, order).second <= Walk(m, order).best && 0.0 <= Walk(m, order).best
  {
    if order != [] { WalkOrdered(m, order[..|order| - 1]); }
  }

  lemma MeetCommutes(t: Top, p: real, q: real)
    requires t.second <= t.best
    ensures Meet(Meet(t, p), q) == Meet(Meet(t, q), p)
  {}

  /** The key at `i` may as well be walked last. */
  lemma {:induction false} WalkMoves(m: Distribution, order: seq<string>, i: nat)
    requires Known(m, order) && i < |order|
    ensures Known(m, order[..i] + order[i + 1..])
    ensures Walk(m, order) == Meet(Walk(m, order[..i] + order[i + 1..]), m[order[i]])
  {
    hide Meet;
    var n := |order| - 1;
    var rest := order[..i] + order[i + 1..];
    assert forall j | 0 <= j < |rest| :: rest[j] == order[if j < i then j else j + 1];
    if i == n {
      assert rest == order[..n];
    } else {
      var front := order[..n];
      WalkMoves(m, front, i);
      var inner := front[..i] + front[i + 1..];
      assert front[i] == order[i] && rest[..|rest| - 1] == inner && rest[|rest| - 1] == order[n];
      WalkOrdered(m, inner);
      MeetCommutes(Walk(m, inner), m[order[i]], m[order[n]]);
    }
  }

  lemma RemoveAt(order: seq<string>, i: nat)
    requires i < |order|
    ensures multiset(order[..i] + order[i + 1..]) == multiset(order) - multiset{order[i]}
  {
    assert order == order[..i] + [order[i]] + order[i + 1..];
  }

  /** The largest two probabilities and the exact sum are the same in every order. */
  lemma {:induction false} WalkOrderFree(m: Distribution, a: seq<string>, b: seq<string>)
    requires multiset(a) == multiset(b) && Known(m, a) && Known(m, b)
    ensures Walk(m, a) == Walk(m, b)
    decreases |a|
  {
    hide Meet;
    assert |a| == |multiset(a)| == |multiset(b)| == |b|;
    if a != [] {
      var n := |a| - 1;
      assert a[n] in multiset(b);
      var i :| 0 <= i < |b| && b[i] == a[n];
      WalkMoves(m, b, i);
      RemoveAt(b, i);
      RemoveAt(a, n);
      assert a[..n] + a[n + 1..] == a[..n];
      assert Known(m, a[..n]);
      WalkOrderFree(m, a[..n], b[..i] + b[i + 1..]);
    }
  }

  lemma {:induction false} BestIsMax(m: Distribution, order: seq<string>)
    requires Known(m, order)
    ensures forall i | 0 <= i < |order| :: m[order[i]] <= Walk(m, order).best
    ensures Walk(m, order).best == 0.0 || exists i | 0 <= i < |order| :: m[order[i]] == Walk(m, order).best
  {
    if order != [] {
      var n := |order| - 1;
      BestIsMax(m, order[..n]);
      var t := Walk(m, order[..n]);
      if m[order[n]] <= t.best && t.best != 0.0 {
        var i :| 0 <= i < |order[..n]| && m[order[..n][i]] == t.best;
        assert m[order[i]] == t.best;
      }
    }
  }

  // ---- the thresholded choice ----

  datatype Answer = Incomplete | Invalid | Inconsistent | Chosen(choice: string, confidence: int)

  predicate ValidEntry(m: Distribution, k: string)
    requires k in m
  {
    k in OPTIONS && 0.0 <= m[k] <= 1.0
  }

  predicate ValidDistribution(m: Distribution) { forall k | k in m :: ValidEntry(m, k) }

  function Percent(p: real): int { (p * 100.0 + 0.5).Floor }

  /** What is made of the sum and the top two. */
  function Conclude(choice: string, p: real, total: real, t: Top): Answer {
    if total < 0.98 || total > 1.02 || p != t.best then Inconsistent
    else if t.best < 0.80 || t.best - t.second < 0.15 then Chosen("uncertain", Percent(t.best))
    else Chosen(choice, Percent(t.best))
  }

  function Evaluate(plus: Addition, choice: string, m: Distribution, order: seq<string>): Answer
    requires Enumerates(order, m)
  {
    if choice !in OPTIONS || |m| != |OPTIONS| then Incomplete
    else if !ValidDistribution(m) then Invalid
    else
      EnumeratedKnown(m, order);
      Conclude(choice, if choice in m then m[choice] else 0.0, Sum(plus, m, order), Walk(m, order))
  }

  method ThresholdedChoice(plus: Addition, choice: string, m: Distribution, order: seq<string>) returns (r: Answer)
    requires Enumerates(order, m)
    ensures r == Evaluate(plus, choice, m, order)
  {
    EnumeratedKnown(m, order);
    if choice !in OPTIONS || |m| != |OPTIONS| { return Incomplete; }
    var total, best, second := 0.0, 0.0, 0.0;
    for i := 0 to |order|
      invariant total == Sum(plus, m, order[..i])
      invariant best == Walk(m, order[..i]).best && second == Walk(m, order[..i]).second
      invariant forall k | 0 <= k < i :: ValidEntry(m, order[k])
    {
      var p := m[order[i]];
      if order[i] !in OPTIONS || p < 0.0 || p > 1.0 {
        assert !ValidEntry(m, order[i]);
        return Invalid;
      }
      assert order[..i + 1][..i] == order[..i];
      total := plus(total, p);
      if p > best {
        second, best := best, p;
      } else if p > second {
        second := p;
      }
    }
    assert order[..|order|] == order;
    forall k | k in m ensures ValidEntry(m, k) { assert k in order; }
    var chosen := if choice in m then m[choice] else 0.0;
    if total < 0.98 || total > 1.02 || chosen != best { return Inconsistent; }
    if best < 0.80 || best - second < 0.15 { return Chosen("uncertain", Percent(best)); }
    return Chosen(choice, Percent(best));
  }

  // ---- when the order does not matter ----

  /** The most that n additions from zero can be off. */
  function Slack(n: nat, u: real): real { if n <= 1 then 0.0 else Slack(n - 1, u) + u }

  lemma Nothing(plus: Addition, m: Distribution, order: seq<string>, u: real)
    requires order == []
    ensures Sum(plus, m, order) == 0.0 && Walk(m, order).total == 0.0 && Slack(0, u) == 0.0 && Slack(1, u) == 0.0
  {}

  lemma OneMore(plus: Addition, m: Distribution, order: seq<string>, u: real)
    requires Known(m, order) && order != []
    ensures var n := |order| - 1;
      && Sum(plus, m, order) == plus(Sum(plus, m, order[..n]), m[order[n]])
      && Walk(m, order).total == Walk(m, order[..n]).total + m[order[n]]
      && Slack(|order|, u) == if n == 0 then 0.0 else Slack(n, u) + u
  {}

  lemma {:induction false} SumNear(plus: Addition, u: real, m: Distribution, order: seq<string>)
    requires Rounds(plus, u) && Known(m, order) && |order| <= 4
    requires forall i | 0 <= i < |order| :: 0.0 <= m[order[i]] <= 1.0
    ensures -Slack(|order|, u) <= Sum(plus, m, order) - Walk(m, order).total <= Slack(|order|, u)
    ensures 0.0 <= Walk(m, order).total <= |order| as real && 0.0 <= Slack(|order|, u) <= 0.3
  {
    hide Walk, Meet, Sum, Slack;
    Nothing(plus, m, order[..0], u);
    if order == [] {
      assert order[..0] == order;
    } else {
      var n := |order| - 1;
      OneMore(plus, m, order, u);
      SumNear(plus, u, m, order[..n]);
      SlackSmall(n, u);
      SlackSmall(|order|, u);
    }
  }

  lemma SlackSmall(n: nat, u: real)
    requires n <= 4 && 0.0 <= u <= 0.1
    ensures 0.0 <= Slack(n, u) <= 0.3
    ensures n == 4 ==> Slack(n, u) == 3.0 * u
  {
    assert Slack(1, u) == 0.0 && Slack(2, u) == u && Slack(3, u) == u + u && Slack(4, u) == u + u + u;
    assert n == 0 || n == 1 || n == 2 || n == 3 || n == 4;
  }

  /** A sum so far from both thresholds that rounding cannot carry it across. */
  predicate Clear(sum: real, u: real) {
    (sum + 3.0 * u < 0.98 || sum - 3.0 * u >= 0.98) && (sum + 3.0 * u <= 1.02 || sum - 3.0 * u > 1.02)
  }

  /** The exact sum of the probabilities, which is the same in every order. */
  ghost function ExactSum(m: Distribution, order: seq<string>): real
    requires Known(m, order)
  {
    Walk(m, order).total
  }

  /**
    With every addition that rounds by at most u, the answer, errors included, is the same in every order in which
    the map is walked, provided that the exact sum is clear of the thresholds by 3u, or that the named choice is not
    the most probable one, or that the distribution is malformed.
   */
  lemma AnswerOrderFree(plus: Addition, u: real, choice: string, m: Distribution, a: seq<string>, b: seq<string>)
    requires Rounds(plus, u) && Enumerates(a, m) && Enumerates(b, m) && Known(m, a)
    requires choice in m && m[choice] == Walk(m, a).best && |m| == |OPTIONS| && ValidDistribution(m) ==>
      Clear(ExactSum(m, a), u)
    ensures Evaluate(plus, choice, m, a) == Evaluate(plus, choice, m, b)
  {
    EnumeratedKnown(m, b);
    WalkOrderFree(m, a, b);
    if choice in OPTIONS && |m| == |OPTIONS| && ValidDistribution(m) {
      AllOptions(m);
      EnumeratesFour(m, a);
      EnumeratesFour(m, b);
      hide Walk, Sum, Slack;
      SumNear(plus, u, m, a);
      SumNear(plus, u, m, b);
      SlackSmall(4, u);
    }
  }

  lemma EnumeratesFour(m: Distribution, order: seq<string>)
    requires Enumerates(order, m) && |m| == |OPTIONS|
    ensures |order| == 4
  {
    assert |order| == |multiset(order)| == |multiset(m.Keys)| == |m.Keys|;
    assert |{"plan", "context", "human", "reject"}| == 4;
  }

  /** With exact addition the order never matters. */
  lemma ExactOrderFree(choice: string, m: Distribution, a: seq<string>, b: seq<string>)
    requires Enumerates(a, m) && Enumerates(b, m)
    ensures Evaluate((x, y) => x + y, choice, m, a) == Evaluate((x, y) => x + y, choice, m, b)
  {
    EnumeratedKnown(m, a);
    AnswerOrderFree((x, y) => x + y, 0.0, choice, m, a, b);
  }

  /** An addition that is off by `e` when it adds a small number to a large one, and exact otherwise. */
  function Tilted(e: real): Addition {
    (a: real, b: real) =>
      if a == 0.0 then b else if b == 0.0 then a
      else if (a >= 0.5 && b <= 0.1) || (b >= 0.5 && a <= 0.1) then a + b + e else a + b
  }

  /** A distribution with the given exact sum. */
  function Leaning(sum: real): Distribution {
    map["plan" := sum - 0.167, "context" := 0.049, "human" := 0.059, "reject" := 0.059]
  }

  const PLAN_FIRST := ["plan", "context", "human", "reject"]
  const PLAN_LAST := ["context", "human", "reject", "plan"]

  lemma TiltedRounds(e: real, u: real)
    requires -u <= e <= u <= 0.01 && 0.0 <= u
    ensures Rounds(Tilted(e), u)
  {}

  lemma LeaningValid(sum: real)
    requires 0.9 <= sum <= 1.1
    ensures Enumerates(PLAN_FIRST, Leaning(sum)) && Enumerates(PLAN_LAST, Leaning(sum))
    ensures ValidDistribution(Leaning(sum)) && |Leaning(sum)| == |OPTIONS| && "plan" in OPTIONS
  {
    hide ValidEntry, Leaning;
    LeaningKeys(sum);
    OrdersEnumerate();
    LeaningEntries(sum);
  }

  lemma LeaningKeys(sum: real)
    ensures Leaning(sum).Keys == OPTIONS
  {}

  lemma OrdersEnumerate()
    ensures multiset(PLAN_FIRST) == multiset(OPTIONS) && multiset(PLAN_LAST) == multiset(OPTIONS)
  {}

  lemma LeaningEntries(sum: real)
    requires 0.9 <= sum <= 1.1
    ensures var m := Leaning(sum);
      ValidEntry(m, "plan") && ValidEntry(m, "context") && ValidEntry(m, "human") && ValidEntry(m, "reject")
  {}

  /** Walking the large number first: every later addition is off. */
  lemma LeaningFirst(sum: real, e: real)
    requires 0.9 <= sum <= 1.1 && -0.01 <= e <= 0.01
    ensures Known(Leaning(sum), PLAN_FIRST)
    ensures Sum(Tilted(e), Leaning(sum), PLAN_FIRST) == sum + 3.0 * e
    ensures Walk(Leaning(sum), PLAN_FIRST) == Top(sum, sum - 0.167, 0.059)
  {
    var m, plus, o := Leaning(sum), Tilted(e), PLAN_FIRST;
    assert o[..1] == ["plan"] && o[..1][..0] == [] && o[..2][..1] == o[..1] && o[..3][..2] == o[..2] && o[..4] == o;
    assert Sum(plus, m, o[..1]) == sum - 0.167 && Walk(m, o[..1]) == Top(sum - 0.167, sum - 0.167, 0.0);
    assert Sum(plus, m, o[..2]) == sum - 0.118 + e && Walk(m, o[..2]) == Top(sum - 0.118, sum - 0.167, 0.049);
    assert Sum(plus, m, o[..3]) == sum - 0.059 + 2.0 * e && Walk(m, o[..3]) == Top(sum - 0.059, sum - 0.167, 0.059);
  }

  /** Walking it last: every addition is exact. */
  lemma LeaningLast(sum: real, e: real)
    requires 0.9 <= sum <= 1.1
    ensures Known(Leaning(sum), PLAN_LAST)
    ensures Sum(Tilted(e), Leaning(sum), PLAN_LAST) == sum
  {
    var m, plus, o := Leaning(sum), Tilted(e), PLAN_LAST;
    assert o[..1] == ["context"] && o[..1][..0] == [] && o[..2][..1] == o[..1] && o[..3][..2] == o[..2] && o[..4] == o;
    assert Sum(plus, m, o[..1]) == 0.049;
    assert Sum(plus, m, o[..2]) == 0.108;
    assert Sum(plus, m, o[..3]) == 0.167;
  }

  /** The two answers to one response: off by 3e when the large number is met first, and exact when it is met last. */
  lemma LeaningAnswers(sum: real, e: real, u: real)
    requires 0.9 <= sum <= 1.1 && -u <= e <= u <= 0.01 && 0.0 <= u
    ensures var m := Leaning(sum);
      && Rounds(Tilted(e), u) && Enumerates(PLAN_FIRST, m) && Enumerates(PLAN_LAST, m)
      && Known(m, PLAN_FIRST) && ExactSum(m, PLAN_FIRST) == sum
      && var t := Top(sum, sum - 0.167, 0.059);
      && Evaluate(Tilted(e), "plan", m, PLAN_FIRST) == Conclude("plan", sum - 0.167, sum + 3.0 * e, t)
      && Evaluate(Tilted(e), "plan", m, PLAN_LAST) == Conclude("plan", sum - 0.167, sum, t)
  {
    TiltedRounds(e, u);
    LeaningValid(sum);
    LeaningFirst(sum, e);
    LeaningLast(sum, e);
    WalkOrderFree(Leaning(sum), PLAN_FIRST, PLAN_LAST);
    hide Walk, Sum, Tilted, Rounds, Enumerates, ValidDistribution, Conclude;
  }

  /** Whatever the rounding and the response, the order makes no difference to an exact sum of `sum`. */
  ghost predicate OrderNeverMatters(sum: real, u: real) {
    forall plus: Addition, choice: string, m: Distribution, a: seq<string>, b: seq<string> ::
      Rounds(plus, u) && Enumerates(a, m) && Enumerates(b, m) && Known(m, a) && ExactSum(m, a) == sum ==>
        Evaluate(plus, choice, m, a) == Evaluate(plus, choice, m, b)
  }

  lemma OrderMatters(sum: real, e: real, u: real)
    requires 0.9 <= sum <= 1.1 && -u <= e <= u <= 0.01 && 0.0 <= u
    requires var t := Top(sum, sum - 0.167, 0.059);
      Conclude("plan", sum - 0.167, sum + 3.0 * e, t) != Conclude("plan", sum - 0.167, sum, t)
    ensures !OrderNeverMatters(sum, u)
  {
    LeaningAnswers(sum, e, u);
    hide Rounds, Enumerates, Evaluate, Known, ExactSum, Tilted, Conclude;
    var (plus, m) := (Tilted(e), Leaning(sum));
    assert Evaluate(plus, "plan", m, PLAN_FIRST) != Evaluate(plus, "plan", m, PLAN_LAST);
  }

  /** The order can never matter for an exact sum, if and only if that sum is clear of both thresholds by 3u. */
  lemma ClearExactly(sum: real, u: real)
    requires 0.0 < u <= 0.01
    ensures OrderNeverMatters(sum, u) <==> Clear(sum, u)
  {
    hide Rounds, Enumerates, Evaluate, Known;
    if Clear(sum, u) {
      forall plus: Addition, choice: string, m: Distribution, a: seq<string>, b: seq<string> |
        Rounds(plus, u) && Enumerates(a, m) && Enumerates(b, m) && Known(m, a) && ExactSum(m, a) == sum
        ensures Evaluate(plus, choice, m, a) == Evaluate(plus, choice, m, b)
      {
        AnswerOrderFree(plus, u, choice, m, a, b);
      }
    } else if sum < 0.98 || 1.0 < sum <= 1.02 {
      OrderMatters(sum, u, u);
    } else {
      OrderMatters(sum, -u, u);
    }
  }

  /**
    For instance, with 0.813, 0.049, 0.059 and 0.059 and any error at all: "plan" or inconsistent, depending on the
    order.
   */
  lemma RoundingDepends(u: real)
    requires 0.0 < u <= 0.01
    ensures Leaning(0.98) == map["plan" := 0.813, "context" := 0.049, "human" := 0.059, "reject" := 0.059]
    ensures Rounds(Tilted(-u), u) && Enumerates(PLAN_FIRST, Leaning(0.98)) && Enumerates(PLAN_LAST, Leaning(0.98))
    ensures Evaluate(Tilted(-u), "plan", Leaning(0.98), PLAN_FIRST) == Inconsistent
    ensures Evaluate(Tilted(-u), "plan", Leaning(0.98), PLAN_LAST) == Chosen("plan", 81)
  {
    hide Tilted, Rounds, Enumerates, Evaluate, Leaning, Conclude, Known, ExactSum;
    LeaningAnswers(0.98, -u, u);
    LeaningAt();
    ConcludeAt(u);
  }

  lemma LeaningAt()
    ensures Leaning(0.98) == map["plan" := 0.813, "context" := 0.049, "human" := 0.059, "reject" := 0.059]
  {}

  lemma ConcludeAt(u: real)
    requires 0.0 < u <= 0.01
    ensures var t := Top(0.98, 0.98 - 0.167, 0.059);
      && Conclude("plan", 0.98 - 0.167, 0.98 + 3.0 * -u, t) == Inconsistent
      && Conclude("plan", 0.98 - 0.167, 0.98, t) == Chosen("plan", 81)
  {}

  lemma AllOptions(m: Distribution)
    requires ValidDistribution(m) && |m| == |OPTIONS|
    ensures m.Keys == OPTIONS
  {
    assert m.Keys <= OPTIONS;
    assert |OPTIONS - m.Keys| == |OPTIONS| - |m.Keys|;
    assert OPTIONS == m.Keys + (OPTIONS - m.Keys);
  }

  /** The reported choice has at least the threshold, and leads every other option by the margin. */
  predicate Decisive(choice: string, m: Distribution)
    requires choice in m
  {
    m[choice] >= 0.80 && forall k | k in m && k != choice :: m[choice] - m[k] >= 0.15
  }

  lemma Twice(order: seq<string>, x: int, y: int)
    ensures 0 <= x < y < |order| && order[x] == order[y] ==> multiset(order)[order[x]] >= 2
  {
    if 0 <= x < y < |order| && order[x] == order[y] {
      assert order == order[..x] + [order[x]] + order[x + 1..y] + [order[y]] + order[y + 1..];
    }
  }

  lemma OnceOnly(order: seq<string>, m: Distribution, i: nat, j: nat)
    requires Enumerates(order, m) && i < |order| && j < |order| && order[i] == order[j]
    ensures i == j
  {
    Twice(order, i, j);
    Twice(order, j, i);
  }

  /** Without the key at `i`, the rest of the walk meets exactly the other keys. */
  lemma Others(m: Distribution, order: seq<string>, i: nat, k: string)
    requires Enumerates(order, m) && i < |order|
    ensures k in order[..i] + order[i + 1..] <==> k in m && k != order[i]
  {
    EnumeratedKnown(m, order);
    var rest := order[..i] + order[i + 1..];
    if k in m && k != order[i] {
      var j :| 0 <= j < |order| && order[j] == k;
      assert rest[if j < i then j else j - 1] == k;
    }
    if k in rest {
      var j :| 0 <= j < |rest| && rest[j] == k;
      var l := if j < i then j else j + 1;
      assert order[l] == k;
      if k == order[i] { OnceOnly(order, m, i, l); }
    }
  }

  lemma MeetLast(t: Top, p: real)
    requires t.second <= t.best && Meet(t, p).best == p
    ensures Meet(t, p).second == t.best
  {}

  lemma TopTwo(choice: string, m: Distribution, order: seq<string>)
    requires Enumerates(order, m) && choice in m && Known(m, order)
    requires m[choice] == Walk(m, order).best >= 0.80
    ensures Walk(m, order).best - Walk(m, order).second >= 0.15 <==>
      forall k | k in m && k != choice :: m[choice] - m[k] >= 0.15
  {
    hide Walk, Meet;
    EnumeratedKnown(m, order);
    var i :| 0 <= i < |order| && order[i] == choice;
    var rest := order[..i] + order[i + 1..];
    WalkMoves(m, order, i);
    WalkOrdered(m, rest);
    BestIsMax(m, rest);
    MeetLast(Walk(m, rest), m[choice]);
    forall k ensures k in rest <==> k in m && k != choice { Others(m, order, i, k); }
    var second := Walk(m, rest).best;
    forall k | k in m && k != choice ensures m[k] <= second { assert k in rest; }
    if second != 0.0 {
      var j :| 0 <= j < |rest| && m[rest[j]] == second;
      assert rest[j] in rest;
    }
  }

  /**
    What an answer means: its confidence is a percentage, and it names the model's choice exactly when that is
    decisive.
   */
  lemma AnswerMeans(plus: Addition, choice: string, m: Distribution, order: seq<string>)
    requires Enumerates(order, m) && Evaluate(plus, choice, m, order).Chosen?
    ensures var a := Evaluate(plus, choice, m, order);
      && m.Keys == OPTIONS && choice in m && 0 <= a.confidence <= 100
      && m[choice] * 100.0 - 0.5 < a.confidence as real <= m[choice] * 100.0 + 0.5
      && (forall k | k in m :: m[k] <= m[choice])
      && a.choice == (if Decisive(choice, m) then choice else "uncertain")
  {
    hide Walk;
    EnumeratedKnown(m, order);
    AllOptions(m);
    PercentBounded(m[choice]);
    BestIsMax(m, order);
    forall k | k in m ensures m[k] <= m[choice] { assert k in order; }
    if m[choice] >= 0.80 { TopTwo(choice, m, order); }
  }

  /** Which responses are refused, and how: every other one is answered. */
  lemma AnswerKinds(plus: Addition, choice: string, m: Distribution, order: seq<string>)
    requires Enumerates(order, m) && Known(m, order)
    ensures var a := Evaluate(plus, choice, m, order);
      var whole := choice in {"plan", "context", "human", "reject"} && |m| == 4;
      var proper := forall k | k in m :: k in {"plan", "context", "human", "reject"} && 0.0 <= m[k] <= 1.0;
      && (a.Incomplete? <==> !whole)
      && (a.Invalid? <==> whole && !proper)
      && (a.Chosen? <==>
            && whole && proper && 0.98 <= Sum(plus, m, order) <= 1.02
            && choice in m && forall k | k in m :: m[k] <= m[choice])
  {
    hide Walk, Sum;
    assert |{"plan", "context", "human", "reject"}| == 4;
    EnumeratedKnown(m, order);
    BestIsMax(m, order);
    if choice in OPTIONS && |m| == |OPTIONS| && ValidDistribution(m) {
      AllOptions(m);
      var i :| 0 <= i < |order| && order[i] == choice;
      forall k | k in m ensures m[k] <= Walk(m, order).best { assert k in order; }
    }
  }

  lemma PercentBounded(p: real)
    requires 0.0 <= p <= 1.0
    ensures 0 <= Percent(p) <= 100
    ensures p * 100.0 - 0.5 < Percent(p) as real <= p * 100.0 + 0.5
  {}

  // ---- the merge ----

  datatype Signal = Signal(backend: string, model: string, choice: string, confidence: int)

  /** `reasons` holds the sentences the merge appends; the classifier's own fixed sentences are not modelled. */
  datatype Classification = Classification(decision: string, risk: string, next: string, confidence: int, reasons: seq<string>)

  predicate ValidBackend(kind: string) { kind == "jev" || kind == "deterministic" }

  predicate ValidChoice(choice: string) { choice in OPTIONS || choice == "uncertain" }

  predicate AcceptableSignal(s: Option<Signal>, backend: string) {
    && ValidBackend(backend) && s.Some? && s.value.backend == backend && Trim(s.value.model) != ""
    && 0 <= s.value.confidence <= 100 && ValidChoice(s.value.choice)
  }

  const REJECTED := "The configured decision model rejected the candidate."
  const UNCLEAR := "The configured decision model could not establish a bounded task."
  const FLAGGED := "The configured decision model flagged the scope."

  function Unclear(c: Classification): Classification {
    c.(decision := "needs_context", risk := "unknown", next := "request_context", reasons := c.reasons + [UNCLEAR])
  }

  /** None is the error of missing or mismatched model evidence. */
  function ApplySignal(c: Classification, s: Option<Signal>, backend: string): Option<Classification> {
    if backend == "deterministic" || c.decision != "requires_human" then Some(c)
    else if !AcceptableSignal(s, backend) then None
    else Some(match s.value.choice
      case "reject" => c.(decision := "rejected", risk := "critical", next := "reject", reasons := c.reasons + [REJECTED])
      case "context" => Unclear(c)
      case "uncertain" => Unclear(c)
      case "human" => c.(risk := "high", reasons := c.reasons + [FLAGGED])
      case _ => c)
  }

  /** Model evidence is refused exactly when it is needed and is missing, for another backend or malformed. */
  lemma RefusedExactly(c: Classification, s: Option<Signal>, backend: string)
    ensures ApplySignal(c, s, backend).None? <==>
      && c.decision == "requires_human" && backend != "deterministic"
      && (|| backend != "jev" || s.None? || s.value.backend != backend || Trim(s.value.model) == ""
          || s.value.confidence < 0 || s.value.confidence > 100
          || s.value.choice !in {"plan", "context", "human", "reject", "uncertain"})
  {
    hide Trim;
  }

  function Severity(decision: string): nat {
    if decision == "rejected" then 2 else if decision == "needs_context" then 1 else 0
  }

  function ApplyAll(c: Classification, signals: seq<Option<Signal>>, backend: string): Classification {
    if signals == [] then c
    else
      var d := ApplyAll(c, signals[..|signals| - 1], backend);
      match ApplySignal(d, signals[|signals| - 1], backend)
      case Some(e) => e
      case None => d
  }

  /** No sequence of signals weakens a classification, and nothing but requires_human is changed at all. */
  lemma {:induction false} MergeMonotone(c: Classification, signals: seq<Option<Signal>>, backend: string)
    ensures var d := ApplyAll(c, signals, backend);
      && Severity(c.decision) <= Severity(d.decision) && c.reasons <= d.reasons
      && (c.decision != "requires_human" ==> d == c)
      && (c.decision == "requires_human" ==>
            d.decision == "requires_human" || d.decision == "needs_context" || d.decision == "rejected")
  {
    if signals != [] { MergeMonotone(c, signals[..|signals| - 1], backend); }
  }

  /** The signal the HTTP backend builds from an answer. */
  function SignalOf(model: string, a: Answer): Signal
    requires a.Chosen?
  {
    Signal("jev", if Trim(model) == "" then "jev-latest" else Trim(model), a.choice, a.confidence)
  }

  /** A signal built from a thresholded answer is never refused by the merge for the backend it came from. */
  lemma SignalAccepted(plus: Addition, choice: string, m: Distribution, order: seq<string>, model: string,
      c: Classification)
    requires Enumerates(order, m) && Evaluate(plus, choice, m, order).Chosen?
    ensures ApplySignal(c, Some(SignalOf(model, Evaluate(plus, choice, m, order))), "jev").Some?
  {
    hide Walk;
    AnswerMeans(plus, choice, m, order);
    TrimIdempotent(model);
    assert !IsBlank("jev-latest"[0]);
    TrimIdempotent("jev-latest");
  }

  /**
    What the model can bring about: only a decisive "plan" or "human" leaves the task with its owner, only a decisive
    "reject" rejects it.
   */
  lemma ModelDecides(plus: Addition, choice: string, m: Distribution, order: seq<string>, model: string,
      c: Classification)
    requires Enumerates(order, m) && Evaluate(plus, choice, m, order).Chosen? && c.decision == "requires_human"
    ensures var d := ApplySignal(c, Some(SignalOf(model, Evaluate(plus, choice, m, order))), "jev");
      && d.Some? && choice in m
      && (d.value.decision == "requires_human" <==> Decisive(choice, m) && (choice == "plan" || choice == "human"))
      && (d.value.decision == "rejected" <==> Decisive(choice, m) && choice == "reject")
      && (Decisive(choice, m) && choice == "human" ==> d.value.risk == "high")
      && (Decisive(choice, m) && choice == "plan" ==> d.value == c)
  {
    hide Walk, Decisive, Evaluate;
    AnswerMeans(plus, choice, m, order);
    SignalAccepted(plus, choice, m, order, model, c);
  }

  // ---- the classifier ----

  /** The three word lists of the classifier, and lower-casing. */
  datatype Lexicon = Lexicon(hostile: seq<string>, sensitive: seq<string>, acceptance: seq<string>, lower: string -> string)

  datatype Task = Task(sourceState: string, baseRef: string, baseSha: string)

  predicate ContainsAny(text: string, words: seq<string>) { exists i | 0 <= i < |words| :: Contains(text, words[i]) }

  function JoinLines(lines: seq<string>): string {
    if lines == [] then "" else if |lines| == 1 then lines[0] else lines[0] + "\n" + JoinLines(lines[1..])
  }

  function Content(x: Lexicon, title: string, body: string, labels: seq<string>): string {
    x.lower(Trim(title) + "\n" + Trim(body) + "\n" + JoinLines(labels))
  }

  function Classify(x: Lexicon, t: Task, title: string, body: string, labels: seq<string>): Classification {
    var content := Content(x, title, body, labels);
    if ContainsAny(content, x.hostile) then Classification("rejected", "critical", "reject", 99, [])
    else if Trim(title) == "" || |Trim(body)| < 80 then Classification("needs_context", "unknown", "request_context", 95, [])
    else if ContainsAny(content, x.sensitive) then Classification("requires_human", "high", "await_plan_approval", 90, [])
    else if !ContainsAny(content, x.acceptance) then Classification("requires_human", "medium", "await_plan_approval", 85, [])
    else
      var next := if t.sourceState == "ready" then "await_plan_approval" else "capture_source";
      Classification("requires_human", "low", next, 70, [])
  }

  /** The decision, the risk and the next action agree. */
  predicate Consistent(c: Classification) {
    && (c.decision == "rejected" <==> c.risk == "critical") && (c.decision == "rejected" <==> c.next == "reject")
    && (c.decision == "needs_context" <==> c.risk == "unknown")
    && (c.decision == "needs_context" <==> c.next == "request_context")
    && (c.decision == "rejected" || c.decision == "needs_context" || c.decision == "requires_human")
  }

  /** What the classifier looks at, and what follows from it. */
  lemma ClassifyMeans(x: Lexicon, t: Task, title: string, body: string, labels: seq<string>)
    ensures var c := Classify(x, t, title, body, labels);
      var hostile := ContainsAny(Content(x, title, body, labels), x.hostile);
      var sensitive := ContainsAny(Content(x, title, body, labels), x.sensitive);
      var checkable := ContainsAny(Content(x, title, body, labels), x.acceptance);
      && Consistent(c)
      && (c.decision == "rejected" <==> hostile)
      && (c.decision == "requires_human" <==> !hostile && Trim(title) != "" && |Trim(body)| >= 80)
      && (c.risk == "high" <==> c.decision == "requires_human" && sensitive)
      && (c.risk == "medium" <==> c.decision == "requires_human" && !sensitive && !checkable)
      && (c.risk == "low" <==> c.decision == "requires_human" && !sensitive && checkable)
      && (c.next == "capture_source" <==> c.risk == "low" && t.sourceState != "ready")
      && (c.decision == "requires_human" && c.next != "capture_source" ==> c.next == "await_plan_approval")
      && c.confidence == (if hostile then 99 else if c.risk == "unknown" then 95 else if sensitive then 90
                          else if checkable then 70 else 85)
  {
    hide ContainsAny, Content, Trim;
  }

  function RiskRank(risk: string): nat { if risk == "high" then 2 else if risk == "medium" then 1 else 0 }

  /** No sequence of signals makes the fields disagree, lowers the risk of a task that stays open, or moves it on. */
  lemma {:induction false} MergeConsistent(c: Classification, signals: seq<Option<Signal>>, backend: string)
    requires Consistent(c)
    ensures var d := ApplyAll(c, signals, backend);
      && Consistent(d)
      && (d.decision == "requires_human" ==> RiskRank(c.risk) <= RiskRank(d.risk) && d.next == c.next)
      && d.confidence == c.confidence
  {
    if signals != [] {
      MergeConsistent(c, signals[..|signals| - 1], backend);
      MergeMonotone(c, signals[..|signals| - 1], backend);
    }
  }

  /**
    The guard asks the model exactly when the classifier, for the task as it stands, would leave the decision to a
    human.
   */
  predicate AsksModel(x: Lexicon, t: Task, baseRef: string, baseSha: string, title: string, body: string,
      labels: seq<string>) {
    var guard := t.(sourceState := "ready", baseRef := baseRef, baseSha := baseSha);
    Classify(x, guard, title, body, labels).decision == "requires_human"
  }

  /**
    The guard's decision does not depend on the source state it substitutes; a model is asked exactly for the
    decisions it may change; and hostile or empty requests stay refused whatever the model says.
   */
  lemma GuardIndependent(
    x: Lexicon, t: Task, u: Task, baseRef: string, baseSha: string,
    title: string, body: string, labels: seq<string>, signals: seq<Option<Signal>>, backend: string)
    ensures AsksModel(x, t, baseRef, baseSha, title, body, labels) <==>
      Classify(x, u, title, body, labels).decision == "requires_human"
    ensures AsksModel(x, t, baseRef, baseSha, title, body, labels) <==>
      !ContainsAny(Content(x, title, body, labels), x.hostile) && Trim(title) != "" && |Trim(body)| >= 80
    ensures var final := ApplyAll(Classify(x, u, title, body, labels), signals, backend);
      && (ContainsAny(Content(x, title, body, labels), x.hostile) ==> final.decision == "rejected")
      && (Trim(title) == "" || |Trim(body)| < 80 ==> Severity(final.decision) >= 1)
  {
    hide ContainsAny, Content, Trim;
    MergeMonotone(Classify(x, u, title, body, labels), signals, backend);
  }
}

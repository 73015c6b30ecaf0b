/**
 * Pool calculators and what they make of a ledger.  A calculator reads accounts one after another and, wherever it
 * likes, splits into branches that run at once and are joined by parallelx.Run, as every built-in calculator does for
 * its price and its supply.  When several branches fail by themselves, either error may come back.
 */
module Calculations {
  import opened Basics
  import opened Errors
  import opened Rpc
  import opened Calculators

  /** What a calculator has learnt: an answer to a read, or the result of its branches. */
  datatype Input = Got(answer: Answer) | Joined(result: Result<seq<Metrics>, Error>)

  datatype Turn = Consult(read: Read) | Split(branches: seq<Program>) | Conclude(outcome: Result<Metrics, Error>)

  /** left: more than the steps still to come, so that a calculation comes to an end. */
  datatype Blueprint = Blueprint(left: seq<Input> -> nat, next: seq<Input> -> Turn)

  function BranchesDemand(branches: seq<Program>): nat {
    if branches == [] then 0 else branches[0].left([]) + 5 + BranchesDemand(branches[1..])
  }

  function TurnDemand(turn: Turn): nat {
    match turn
    case Consult(read) => Demand(read)
    case Split(branches) => BranchesDemand(branches) + 3
    case Conclude(_) => 0
  }

  ghost predicate Halting(b: Blueprint) {
    forall h: seq<Input>, x: Input :: !b.next(h).Conclude? ==> b.left(h + [x]) + TurnDemand(b.next(h)) < b.left(h)
  }

  type Calculation = b: Blueprint | Halting(b) witness Blueprint(_ => 0, _ => Conclude(Ok([])))

  lemma OneLess(c: Calculation, h: seq<Input>, x: Input)
    requires !c.next(h).Conclude?
    ensures c.left(h + [x]) + TurnDemand(c.next(h)) < c.left(h)
  {
    assert Halting(c);
  }

  // ---- what the ledger allows ----

  /** The results parallelx.Run may come back with: all payloads, or the error of some branch that fails by itself. */
  ghost predicate MayJoin(l: Ledger, provider: Provider, branches: seq<Program>, r: Result<seq<Metrics>, Error>) {
    match r
    case Ok(ms) =>
      |ms| == |branches| && forall j | 0 <= j < |branches| :: Eval(l, provider, branches[j], []) == Ok(ms[j])
    case Err(e) => exists j :: 0 <= j < |branches| && Eval(l, provider, branches[j], []) == Err(e)
  }

  ghost predicate Fits(l: Ledger, provider: Provider, turn: Turn, x: Input) {
    match (turn, x)
    case (Consult(read), Got(answer)) => answer == LedgerAnswer(l, provider, read)
    case (Split(branches), Joined(r)) => MayJoin(l, provider, branches, r)
    case _ => false
  }

  /** A history the ledger allows. */
  ghost predicate OnCourse(l: Ledger, provider: Provider, c: Calculation, h: seq<Input>) {
    forall i | 0 <= i < |h| :: Fits(l, provider, c.next(h[..i]), h[i])
  }

  lemma CourseGrows(l: Ledger, provider: Provider, c: Calculation, h: seq<Input>, x: Input)
    requires OnCourse(l, provider, c, h) && Fits(l, provider, c.next(h), x)
    ensures OnCourse(l, provider, c, h + [x])
  {
    var h' := h + [x];
    forall i | 0 <= i < |h'|
      ensures Fits(l, provider, c.next(h'[..i]), h'[i])
    {
      if i < |h| {
        assert h'[..i] == h[..i];
      } else {
        assert h'[..i] == h;
      }
    }
  }

  /** An outcome the calculation can come to on the ledger. */
  ghost predicate May(l: Ledger, provider: Provider, c: Calculation, outcome: Result<Metrics, Error>) {
    exists h :: OnCourse(l, provider, c, h) && c.next(h) == Conclude(outcome)
  }

  // ---- one such course ----

  function FirstFailure(l: Ledger, provider: Provider, branches: seq<Program>): Option<Error> {
    if branches == [] then None
    else
      var r := Eval(l, provider, branches[0], []);
      if r.Err? then Some(r.error) else FirstFailure(l, provider, branches[1..])
  }

  function Payloads(l: Ledger, provider: Provider, branches: seq<Program>): seq<Metrics> {
    seq(|branches|, j requires 0 <= j < |branches| =>
          var r := Eval(l, provider, branches[j], []); if r.Ok? then r.value else [])
  }

  function LedgerJoin(l: Ledger, provider: Provider, branches: seq<Program>): Result<seq<Metrics>, Error> {
    var failure := FirstFailure(l, provider, branches);
    if failure.Some? then Err(failure.value) else Ok(Payloads(l, provider, branches))
  }

  lemma {:induction false} FirstFailureIs(l: Ledger, provider: Provider, branches: seq<Program>)
    ensures var failure := FirstFailure(l, provider, branches);
            if failure.Some? then
              exists j :: 0 <= j < |branches| && Eval(l, provider, branches[j], []) == Err(failure.value)
            else forall j | 0 <= j < |branches| :: Eval(l, provider, branches[j], []).Ok?
  {
    if branches != [] && Eval(l, provider, branches[0], []).Ok? {
      FirstFailureIs(l, provider, branches[1..]);
      var failure := FirstFailure(l, provider, branches);
      if failure.Some? {
        var j :| 0 <= j < |branches[1..]| && Eval(l, provider, branches[1..][j], []) == Err(failure.value);
        assert Eval(l, provider, branches[j + 1], []) == Err(failure.value);
      } else {
        forall j | 0 <= j < |branches|
          ensures Eval(l, provider, branches[j], []).Ok?
        {
          if j > 0 {
            assert branches[j] == branches[1..][j - 1];
          }
        }
      }
    } else if branches != [] {
      assert Eval(l, provider, branches[0], []) == Err(FirstFailure(l, provider, branches).value);
    }
  }

  lemma LedgerJoinIsPossible(l: Ledger, provider: Provider, branches: seq<Program>)
    ensures MayJoin(l, provider, branches, LedgerJoin(l, provider, branches))
  {
    FirstFailureIs(l, provider, branches);
  }

  function LedgerInput(l: Ledger, provider: Provider, turn: Turn): Input
    requires !turn.Conclude?
  {
    match turn
    case Consult(read) => Got(LedgerAnswer(l, provider, read))
    case Split(branches) => Joined(LedgerJoin(l, provider, branches))
  }

  /** The course that takes the first failing branch's error wherever branches fail. */
  function Follow(l: Ledger, provider: Provider, c: Calculation, h: seq<Input>): (r: seq<Input>)
    ensures c.next(r).Conclude?
    decreases c.left(h)
  {
    if c.next(h).Conclude? then h
    else
      var x := LedgerInput(l, provider, c.next(h));
      OneLess(c, h, x);
      Follow(l, provider, c, h + [x])
  }

  lemma {:induction false} FollowIsOnCourse(l: Ledger, provider: Provider, c: Calculation, h: seq<Input>)
    requires OnCourse(l, provider, c, h)
    ensures OnCourse(l, provider, c, Follow(l, provider, c, h))
    decreases c.left(h)
  {
    if !c.next(h).Conclude? {
      var x := LedgerInput(l, provider, c.next(h));
      if c.next(h).Split? {
        LedgerJoinIsPossible(l, provider, c.next(h).branches);
      }
      OneLess(c, h, x);
      CourseGrows(l, provider, c, h, x);
      FollowIsOnCourse(l, provider, c, h + [x]);
    }
  }

  function Value(l: Ledger, provider: Provider, c: Calculation): Result<Metrics, Error> {
    c.next(Follow(l, provider, c, [])).outcome
  }

  lemma ValueIsPossible(l: Ledger, provider: Provider, c: Calculation)
    ensures May(l, provider, c, Value(l, provider, c))
  {
    FollowIsOnCourse(l, provider, c, []);
  }

  // ---- when there is only one ----

  ghost predicate AllSucceed(l: Ledger, provider: Provider, branches: seq<Program>) {
    forall j | 0 <= j < |branches| :: Eval(l, provider, branches[j], []).Ok?
  }

  /** Failing branches agree on their error; in particular when at most one fails. */
  ghost predicate OneError(l: Ledger, provider: Provider, branches: seq<Program>) {
    forall j, k | 0 <= j < k < |branches| ::
      Eval(l, provider, branches[j], []).Err? && Eval(l, provider, branches[k], []).Err? ==>
        Eval(l, provider, branches[j], []) == Eval(l, provider, branches[k], [])
  }

  /** Wherever the calculation splits on a course the ledger allows, its branches leave no choice of error. */
  ghost predicate Decided(l: Ledger, provider: Provider, c: Calculation) {
    forall h | OnCourse(l, provider, c, h) && c.next(h).Split? :: OneError(l, provider, c.next(h).branches)
  }

  lemma JoinsAgree(
    l: Ledger, provider: Provider, branches: seq<Program>,
    r: Result<seq<Metrics>, Error>, r': Result<seq<Metrics>, Error>)
    requires OneError(l, provider, branches) && MayJoin(l, provider, branches, r) && MayJoin(l, provider, branches, r')
    ensures r == r'
  {
    if r.Ok? && r'.Ok? {
      forall j | 0 <= j < |branches|
        ensures r.value[j] == r'.value[j]
      {
        assert Eval(l, provider, branches[j], []) == Ok(r.value[j]);
        assert Eval(l, provider, branches[j], []) == Ok(r'.value[j]);
      }
      assert r.value == r'.value;
    } else if r.Err? && r'.Err? {
      var j :| 0 <= j < |branches| && Eval(l, provider, branches[j], []) == Err(r.error);
      var k :| 0 <= k < |branches| && Eval(l, provider, branches[k], []) == Err(r'.error);
      assert Eval(l, provider, branches[j], []).Err? && Eval(l, provider, branches[k], []).Err?;
    }
  }

  lemma {:induction false} OneCourse(l: Ledger, provider: Provider, c: Calculation, h: seq<Input>, h': seq<Input>)
    requires Decided(l, provider, c) && OnCourse(l, provider, c, h) && OnCourse(l, provider, c, h') && |h| <= |h'|
    ensures h == h'[..|h|]
    decreases |h|
  {
    if h != [] {
      var n := |h| - 1;
      PrefixOnCourse(l, provider, c, h, n);
      OneCourse(l, provider, c, h[..n], h');
      assert h[..n] == h'[..n];
      assert Fits(l, provider, c.next(h[..n]), h[n]) && Fits(l, provider, c.next(h'[..n]), h'[n]);
      if c.next(h[..n]).Split? {
        JoinsAgree(l, provider, c.next(h[..n]).branches, h[n].result, h'[n].result);
      }
      assert h == h[..n] + [h[n]] && h'[..|h|] == h'[..n] + [h'[n]];
    }
  }

  lemma PrefixOnCourse(l: Ledger, provider: Provider, c: Calculation, h: seq<Input>, n: nat)
    requires OnCourse(l, provider, c, h) && n <= |h|
    ensures OnCourse(l, provider, c, h[..n])
  {
    forall i | 0 <= i < n
      ensures Fits(l, provider, c.next(h[..n][..i]), h[..n][i])
    {
      assert h[..n][..i] == h[..i];
    }
  }

  lemma NoEarlyEnd(l: Ledger, provider: Provider, c: Calculation, h: seq<Input>)
    requires OnCourse(l, provider, c, h)
    ensures forall n | 0 <= n < |h| :: !c.next(h[..n]).Conclude?
  {
    forall n | 0 <= n < |h|
      ensures !c.next(h[..n]).Conclude?
    {
      assert Fits(l, provider, c.next(h[..n]), h[n]);
    }
  }

  /** A decided calculation ends in one way only. */
  lemma DecidedEnds(l: Ledger, provider: Provider, c: Calculation, h: seq<Input>)
    requires Decided(l, provider, c) && OnCourse(l, provider, c, h) && c.next(h).Conclude?
    ensures h == Follow(l, provider, c, []) && c.next(h).outcome == Value(l, provider, c)
  {
    var f := Follow(l, provider, c, []);
    FollowIsOnCourse(l, provider, c, []);
    NoEarlyEnd(l, provider, c, h);
    NoEarlyEnd(l, provider, c, f);
    if |h| <= |f| {
      OneCourse(l, provider, c, h, f);
    } else {
      OneCourse(l, provider, c, f, h);
    }
    assert f[..|f|] == f && h[..|h|] == h;
  }

  /** The outcomes of a decided calculation come down to its value. */
  lemma DecidedValue(l: Ledger, provider: Provider, c: Calculation, outcome: Result<Metrics, Error>)
    requires Decided(l, provider, c)
    ensures May(l, provider, c, outcome) <==> outcome == Value(l, provider, c)
  {
    ValueIsPossible(l, provider, c);
    if May(l, provider, c, outcome) {
      var h :| OnCourse(l, provider, c, h) && c.next(h) == Conclude(outcome);
      DecidedEnds(l, provider, c, h);
    }
  }

  lemma JoinsPart(l: Ledger, provider: Provider, branches: seq<Program>)
    returns (x: Result<seq<Metrics>, Error>, y: Result<seq<Metrics>, Error>)
    requires !OneError(l, provider, branches)
    ensures MayJoin(l, provider, branches, x) && MayJoin(l, provider, branches, y) && x != y
  {
    var j, k :| 0 <= j < k < |branches|
                && Eval(l, provider, branches[j], []).Err? && Eval(l, provider, branches[k], []).Err?
                && Eval(l, provider, branches[j], []) != Eval(l, provider, branches[k], []);
    x, y := Err(Eval(l, provider, branches[j], []).error), Err(Eval(l, provider, branches[k], []).error);
  }

  /** Being decided is just what makes the course unique: elsewhere two courses part. */
  lemma DecidedExactly(l: Ledger, provider: Provider, c: Calculation)
    ensures Decided(l, provider, c) <==>
            forall h, h' | OnCourse(l, provider, c, h) && OnCourse(l, provider, c, h') && |h| == |h'| :: h == h'
  {
    if Decided(l, provider, c) {
      forall h, h' | OnCourse(l, provider, c, h) && OnCourse(l, provider, c, h') && |h| == |h'|
        ensures h == h'
      {
        OneCourse(l, provider, c, h, h');
        assert h'[..|h|] == h';
      }
    } else {
      var h :| OnCourse(l, provider, c, h) && c.next(h).Split? && !OneError(l, provider, c.next(h).branches);
      var x, y := JoinsPart(l, provider, c.next(h).branches);
      CourseGrows(l, provider, c, h, Joined(x));
      CourseGrows(l, provider, c, h, Joined(y));
      assert (h + [Joined(x)])[|h|] == Joined(x) && (h + [Joined(y)])[|h|] == Joined(y);
    }
  }
}

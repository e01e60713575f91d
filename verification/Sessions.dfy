/**
 Single-use sign-in tokens.  A token's identity is its signer and timestamp; a use is recorded
 when a session is created and pruned after the retention, so the record alone does not say what
 was ever accepted.  Instants are microseconds and do not go back.  The verifying library has a
 window of its own around the system's time, which need not be the service's clock.
 */
module Sessions {
  const LIBRARY_WINDOW_SECONDS: int := 180

  datatype Identity = Identity(pubky: string, timestamp: int)

  // One request: the token, the service's clock, the system's time, whether the token is well
  // formed and signed, and whether the rest of the transaction went through.
  datatype Attempt = Attempt(token: Identity, now: int, system: int, signed: bool, stored: bool)

  datatype Answer = Created | InvalidToken | AlreadyUsed | Failed

  type Uses = map<Identity, int>

  function Abs(x: int): int { if x < 0 then -x else x }

  function WindowMicros(windowSeconds: int): int { windowSeconds * 1_000_000 }

  // Twice the larger of the service's and the library's window.
  function RetentionMicros(windowSeconds: int): int {
    2 * (if windowSeconds > LIBRARY_WINDOW_SECONDS then windowSeconds else LIBRARY_WINDOW_SECONDS) * 1_000_000
  }

  // The library's check: the signature, and the timestamp within its own window of the system's time.
  predicate Verified(a: Attempt) {
    a.signed && Abs(a.token.timestamp - a.system) <= WindowMicros(LIBRARY_WINDOW_SECONDS)
  }

  predicate Acceptable(a: Attempt, window: int) {
    Verified(a) && Abs(a.token.timestamp - a.now) <= window
  }

  function Pruned(uses: Uses, before: int): Uses {
    map t | t in uses && uses[t] >= before :: uses[t]
  }

  // One session creation, for any window and retention.
  function Create(uses: Uses, a: Attempt, window: int, retention: int): (Uses, Answer) {
    if !Acceptable(a, window) then (uses, InvalidToken)
    else
      var kept := Pruned(uses, a.now - retention);
      if a.token in kept then (uses, AlreadyUsed)
      else if !a.stored then (uses, Failed)
      else (kept[a.token := a.now], Created)
  }

  function Run(run: seq<Attempt>, window: int, retention: int): Uses
    decreases |run|
  {
    if run == [] then map[] else Create(Run(run[..|run| - 1], window, retention), run[|run| - 1], window, retention).0
  }

  function AnswerAt(run: seq<Attempt>, i: nat, window: int, retention: int): Answer
    requires i < |run|
  {
    Create(Run(run[..i], window, retention), run[i], window, retention).1
  }

  predicate Timely(run: seq<Attempt>) {
    forall i, j :: 0 <= i < j < |run| ==> run[i].now <= run[j].now
  }

  predicate AcceptedBefore(run: seq<Attempt>, token: Identity, n: nat, window: int, retention: int)
    requires n <= |run|
  {
    exists i :: 0 <= i < n && run[i].token == token && AnswerAt(run, i, window, retention).Created?
  }

  // The service's clock shows the system's time.
  predicate ClocksAgree(run: seq<Attempt>) {
    forall i :: 0 <= i < |run| ==> run[i].system == run[i].now
  }

  // The runs with clocks that go forward, and that agree if asked to.
  predicate Possible(run: seq<Attempt>, agree: bool) {
    Timely(run) && (agree ==> ClocksAgree(run))
  }

  // Over any possible run no token is accepted twice.
  ghost predicate SingleUse(window: int, retention: int, agree: bool) {
    forall run: seq<Attempt>, i: nat, j: nat | Possible(run, agree) && i < j < |run| && run[i].token == run[j].token ::
      !(AnswerAt(run, i, window, retention).Created? && AnswerAt(run, j, window, retention).Created?)
  }

  // How far from the service's clock an accepted token can be: the window, and where the clocks
  // agree the smaller of the two windows.
  function Reach(window: int, agree: bool): int {
    var library := WindowMicros(LIBRARY_WINDOW_SECONDS);
    if agree && library < window then library else window
  }

  predicate Reaches(run: seq<Attempt>, window: int, reach: int) {
    forall i :: 0 <= i < |run| && Acceptable(run[i], window) ==> Abs(run[i].token.timestamp - run[i].now) <= reach
  }

  // -------------------------------------------------------------------------
  // What the records still know
  // -------------------------------------------------------------------------

  // A recorded use was accepted; an accepted token that could be accepted again is recorded.
  ghost predicate RemembersOne(run: seq<Attempt>, n: nat, t: Identity, window: int, retention: int, reach: int)
    requires n <= |run|
  {
    var uses := Run(run[..n], window, retention);
    && (t in uses ==> AcceptedBefore(run, t, n, window, retention))
    && (AcceptedBefore(run, t, n, window, retention) && n > 0 && run[n - 1].now <= t.timestamp + reach ==>
          t in uses && t.timestamp - reach <= uses[t])
  }

  lemma AcceptedGrows(run: seq<Attempt>, t: Identity, n: nat, window: int, retention: int)
    requires n < |run|
    ensures AcceptedBefore(run, t, n + 1, window, retention)
            <==> AcceptedBefore(run, t, n, window, retention)
                 || (run[n].token == t && AnswerAt(run, n, window, retention).Created?)
  {
  }

  // One creation, seen from one token: how the records and what was accepted move together.
  lemma CreateRemembers(
    uses: Uses, uses': Uses, a: Attempt, t: Identity, window: int, retention: int, reach: int, was: bool, clock: int)
    requires retention >= 2 * reach && clock <= a.now
    requires Acceptable(a, window) ==> Abs(a.token.timestamp - a.now) <= reach
    requires uses' == Create(uses, a, window, retention).0
    requires t in uses ==> was
    requires was && clock <= t.timestamp + reach ==> t in uses && t.timestamp - reach <= uses[t]
    ensures var now := was || (a.token == t && Create(uses, a, window, retention).1.Created?);
            && (t in uses' ==> now)
            && (now && a.now <= t.timestamp + reach ==> t in uses' && t.timestamp - reach <= uses'[t])
  {
  }

  lemma {:induction false} RunRemembers(run: seq<Attempt>, n: nat, t: Identity, window: int, retention: int, reach: int)
    requires Timely(run) && n <= |run| && Reaches(run, window, reach) && retention >= 2 * reach
    ensures RemembersOne(run, n, t, window, retention, reach)
    decreases n
  {
    if n > 0 {
      RunRemembers(run, n - 1, t, window, retention, reach);
      assert run[..n][..n - 1] == run[..n - 1];
      AcceptedGrows(run, t, n - 1, window, retention);
      var uses, a := Run(run[..n - 1], window, retention), run[n - 1];
      var clock := if n == 1 then a.now else run[n - 2].now;
      CreateRemembers(uses, Run(run[..n], window, retention), a, t, window, retention, reach,
                      AcceptedBefore(run, t, n - 1, window, retention), clock);
    }
  }

  // With enough retention a session is created exactly when the token is acceptable, the rest of
  // the transaction goes through, and the token was never accepted before: pruning is invisible.
  lemma CreatedOnFirstUse(run: seq<Attempt>, n: nat, window: int, retention: int, agree: bool)
    requires Possible(run, agree) && n < |run| && retention >= 2 * Reach(window, agree)
    ensures AnswerAt(run, n, window, retention).Created?
            <==> Acceptable(run[n], window) && run[n].stored
                 && !AcceptedBefore(run, run[n].token, n, window, retention)
  {
    var reach := Reach(window, agree);
    var uses, a := Run(run[..n], window, retention), run[n];
    RunRemembers(run, n, a.token, window, retention, reach);
    if Acceptable(a, window) && AcceptedBefore(run, a.token, n, window, retention) {
      assert n > 0 ==> run[n - 1].now <= a.now;
      assert a.token in Pruned(uses, a.now - retention);
    }
  }

  // A token used at the start of its reach comes back at its end, past a shorter retention.
  lemma ShortRetentionRepeats(window: int, retention: int, agree: bool)
    requires 0 <= window && retention < 2 * Reach(window, agree)
    ensures !SingleUse(window, retention, agree)
  {
    var token, reach := Identity("pubky", 0), Reach(window, agree);
    var first := Attempt(token, -reach, if agree then -reach else 0, true, true);
    var again := Attempt(token, reach, if agree then reach else 0, true, true);
    var run := [first, again];
    assert run[..0] == [] && run[..1] == [first] && [first][..0] == [];
    assert Possible(run, agree);
    assert Run([first], window, retention) == map[token := -reach];
    assert Pruned(map[token := -reach], reach - retention) == map[];
    assert AnswerAt(run, 0, window, retention).Created? && AnswerAt(run, 1, window, retention).Created?;
  }

  // Single use over every run is exactly a matter of retaining for twice the reach: twice the
  // smaller window where the clocks agree, twice the service's own where they may not.
  lemma SingleUseExactly(window: int, retention: int, agree: bool)
    ensures SingleUse(window, retention, agree) <==> window < 0 || retention >= 2 * Reach(window, agree)
  {
    if window >= 0 && retention < 2 * Reach(window, agree) {
      ShortRetentionRepeats(window, retention, agree);
    } else {
      forall run: seq<Attempt>, i: nat, j: nat
        | Possible(run, agree) && i < j < |run| && run[i].token == run[j].token
        ensures !(AnswerAt(run, i, window, retention).Created? && AnswerAt(run, j, window, retention).Created?)
      {
        if window >= 0 {
          CreatedOnFirstUse(run, j, window, retention, agree);
        }
      }
    }
  }

  // The service's retention is enough for any configured window, whatever the clocks show; it is
  // the least that is, exactly for windows of at least the library's where the clocks may differ,
  // and for the library's own window where they agree.
  lemma TokensAreSingleUse(windowSeconds: int, agree: bool)
    ensures SingleUse(WindowMicros(windowSeconds), RetentionMicros(windowSeconds), agree)
    ensures !SingleUse(WindowMicros(windowSeconds), RetentionMicros(windowSeconds) - 1, agree)
            <==> if agree then windowSeconds == LIBRARY_WINDOW_SECONDS else windowSeconds >= LIBRARY_WINDOW_SECONDS
  {
    SingleUseExactly(WindowMicros(windowSeconds), RetentionMicros(windowSeconds), agree);
    SingleUseExactly(WindowMicros(windowSeconds), RetentionMicros(windowSeconds) - 1, agree);
  }

  // -------------------------------------------------------------------------
  // The table as the service keeps it
  // -------------------------------------------------------------------------

  class TokenUses {
    var uses: Uses
    const windowSeconds: int

    constructor (windowSeconds: int)
      ensures uses == map[] && this.windowSeconds == windowSeconds
    {
      uses := map[];
      this.windowSeconds := windowSeconds;
    }

    method CreateSession(a: Attempt) returns (answer: Answer)
      modifies this
      ensures (uses, answer) == Create(old(uses), a, WindowMicros(windowSeconds), RetentionMicros(windowSeconds))
    {
      if !Verified(a) {
        return InvalidToken;
      }
      var drift := a.token.timestamp - a.now;
      if Abs(drift) > WindowMicros(windowSeconds) {
        return InvalidToken;
      }
      var before := uses;
      uses := Pruned(uses, a.now - RetentionMicros(windowSeconds));
      if a.token in uses {
        uses := before;
        return AlreadyUsed;
      }
      uses := uses[a.token := a.now];
      if !a.stored {
        uses := before;
        return Failed;
      }
      return Created;
    }
  }
}

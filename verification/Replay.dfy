/** Replay protection for signed requests (`ClientAuth` of src/pionir/auth.py). Each request
    reads the clock twice, before it waits for the lock: once to see that its time is near
    enough, once for the nonce. Requests take effect in the order they get the lock. */
module Replay {
  import opened Wrappers

  const SIGN_WINDOW := 30.0
  const MAX_NONCES := 20000
  const LIFETIME := 4.0 * SIGN_WINDOW

  type Nonces = map<string, real>     // nonce -> when it may be forgotten

  /** A request: whether its client holds a token and all its parts are there, its signed time
      and nonce, whether the signature is right; then the two clock readings, and when it got
      the lock. */
  datatype Request = Request(named: bool, ts: Option<int>, nonce: string, sigLength: nat, signed: bool,
                             seen: real, asked: real, locked: real)

  datatype Answer = Accepted | InvalidSignature | StaleSignature | ReplayedSignature

  function Live(nonces: Nonces, now: real): Nonces { map n | n in nonces && nonces[n] > now :: nonces[n] }

  /** The cache after room was made, if it was full. */
  function Pruned(nonces: Nonces, now: real): Nonces { if |nonces| >= MAX_NONCES then Live(nonces, now) else nonces }

  predicate Fresh(nonces: Nonces, nonce: string, now: real) {
    |Pruned(nonces, now)| < MAX_NONCES && (nonce in Pruned(nonces, now) ==> nonces[nonce] <= now)
  }

  function Spent(nonces: Nonces, nonce: string, now: real): Nonces {
    if Fresh(nonces, nonce, now) then Pruned(nonces, now)[nonce := now + LIFETIME] else Pruned(nonces, now)
  }

  predicate WellFormed(r: Request) { r.named && 16 <= |r.nonce| <= 128 && r.sigLength <= 256 && r.ts.Some? }

  predicate InWindow(r: Request, booted: real)
    requires r.ts.Some?
  {
    var off := r.seen - r.ts.value as real;
    -SIGN_WINDOW <= off <= SIGN_WINDOW && r.ts.value >= Truncated(booted)
  }

  /** `int(x)`: towards zero. */
  function Truncated(x: real): int { if x < 0.0 then -(-x).Floor else x.Floor }

  predicate ReachesNonce(r: Request, booted: real) { WellFormed(r) && InWindow(r, booted) && r.signed }

  function AnswerTo(nonces: Nonces, r: Request, booted: real): Answer {
    if !WellFormed(r) then InvalidSignature
    else if !InWindow(r, booted) then StaleSignature
    else if !r.signed then InvalidSignature
    else if !Fresh(nonces, r.nonce, r.asked) then ReplayedSignature
    else Accepted
  }

  /** A nonce is spent only by a request with a valid signature. */
  function After(nonces: Nonces, r: Request, booted: real): Nonces {
    if ReachesNonce(r, booted) then Spent(nonces, r.nonce, r.asked) else nonces
  }

  function Run(requests: seq<Request>, booted: real): Nonces {
    if requests == [] then map[]
    else After(Run(requests[..|requests| - 1], booted), requests[|requests| - 1], booted)
  }

  predicate IsAccepted(requests: seq<Request>, i: nat, booted: real)
    requires i < |requests|
  {
    AnswerTo(Run(requests[..i], booted), requests[i], booted).Accepted?
  }

  /** The clock never goes back, and from a request's first reading to its getting the lock no
      more than `gap` seconds pass. */
  predicate Timely(requests: seq<Request>, gap: real) {
    && (forall i | 0 <= i < |requests| ::
          requests[i].seen <= requests[i].asked <= requests[i].locked <= requests[i].seen + gap)
    && (forall i, j | 0 <= i < j < |requests| :: requests[i].locked <= requests[j].locked)
  }

  // ----- what is remembered of an accepted request

  /** The nonce's entry lives on, or so much time has gone by that it need not. */
  predicate Remembered(nonces: Nonces, r: Request, latest: real) {
    || (r.nonce in nonces && nonces[r.nonce] >= r.asked + LIFETIME)
    || latest >= r.asked + LIFETIME
  }

  lemma StepRemembers(nonces: Nonces, r: Request, latest: real, next: Request, booted: real)
    requires Remembered(nonces, r, latest) && latest <= next.locked && next.asked <= next.locked
    ensures Remembered(After(nonces, next, booted), r, next.locked)
  {
  }

  lemma {:induction false} StaysRemembered(requests: seq<Request>, gap: real, i: nat, n: nat, booted: real)
    requires Timely(requests, gap) && i < n <= |requests| && IsAccepted(requests, i, booted)
    ensures Remembered(Run(requests[..n], booted), requests[i], requests[n - 1].locked)
  {
    assert requests[..n][..n - 1] == requests[..n - 1];
    if i < n - 1 {
      StaysRemembered(requests, gap, i, n - 1, booted);
      StepRemembers(Run(requests[..n - 1], booted), requests[i], requests[n - 2].locked, requests[n - 1], booted);
    }
  }

  /** One signed request - one time, one nonce - is accepted once, for ever, whatever comes
      between: pruned, overwritten, full or not. */
  lemma AcceptedOnce(requests: seq<Request>, gap: real, i: nat, j: nat, booted: real)
    requires Timely(requests, gap) && gap < 2.0 * SIGN_WINDOW && i < j < |requests|
    requires requests[i].nonce == requests[j].nonce && requests[i].ts == requests[j].ts
    requires IsAccepted(requests, i, booted)
    ensures !IsAccepted(requests, j, booted)
  {
    StaysRemembered(requests, gap, i, j, booted);
  }

  predicate AcceptsAtMostOnce(requests: seq<Request>, booted: real) {
    forall i, j | 0 <= i < j < |requests| && requests[i].nonce == requests[j].nonce && requests[i].ts == requests[j].ts ::
      !(IsAccepted(requests, i, booted) && IsAccepted(requests, j, booted))
  }

  const A_NONCE := "0123456789abcdef"

  /** The first copy carries a time half a minute ahead; the second is read at the last moment
      that time is near enough, and waits a minute for the lock. */
  function TwoCopies(): seq<Request> {
    [Request(true, Some(30), A_NONCE, 64, true, 0.0, 0.0, 0.0), Request(true, Some(30), A_NONCE, 64, true, 60.0, 120.0, 120.0)]
  }

  lemma BothCopiesAccepted()
    ensures Timely(TwoCopies(), 60.0) && IsAccepted(TwoCopies(), 0, 0.0) && IsAccepted(TwoCopies(), 1, 0.0)
  {
    var copies := TwoCopies();
    assert copies[..0] == [] && copies[..1] == [copies[0]] && copies[..1][..0] == [];
    assert Run([], 0.0) == map[];
    assert Run(copies[..1], 0.0) == map[A_NONCE := 120.0];
    assert Live(map[A_NONCE := 120.0], 120.0) == map[];
  }

  /** The cache stands in for remembering every request for ever exactly when no request waits
      twice the window between its first look at the clock and the lock. */
  lemma BoundedCacheSuffices(gap: real)
    ensures (forall requests: seq<Request>, booted: real | Timely(requests, gap) :: AcceptsAtMostOnce(requests, booted)) <==> gap < 2.0 * SIGN_WINDOW
  {
    if gap < 2.0 * SIGN_WINDOW {
      forall requests: seq<Request>, booted: real | Timely(requests, gap) ensures AcceptsAtMostOnce(requests, booted) {
        forall i, j | 0 <= i < j < |requests| && requests[i].nonce == requests[j].nonce && requests[i].ts == requests[j].ts
          ensures !(IsAccepted(requests, i, booted) && IsAccepted(requests, j, booted))
        {
          if IsAccepted(requests, i, booted) {
            AcceptedOnce(requests, gap, i, j, booted);
          }
        }
      }
    } else {
      BothCopiesAccepted();
      assert Timely(TwoCopies(), gap);
      assert !AcceptsAtMostOnce(TwoCopies(), 0.0);
    }
  }

  // ----- bounded, and refusing no more than it must

  lemma {:induction false} LiveIsFewer(nonces: Nonces, now: real)
    ensures |Live(nonces, now)| <= |nonces|
  {
    assert Live(nonces, now).Keys <= nonces.Keys;
    Fewer(Live(nonces, now).Keys, nonces.Keys);
    assert |Live(nonces, now)| == |Live(nonces, now).Keys| && |nonces| == |nonces.Keys|;
  }

  lemma {:induction false} Fewer(a: set<string>, b: set<string>)
    requires a <= b
    ensures |a| <= |b|
  {
    assert b == a + (b - a);
  }

  lemma {:induction false} NeverOverfull(requests: seq<Request>, booted: real)
    ensures |Run(requests, booted)| <= MAX_NONCES
  {
    if requests != [] {
      var front, r := requests[..|requests| - 1], requests[|requests| - 1];
      NeverOverfull(front, booted);
      var nonces := Run(front, booted);
      LiveIsFewer(nonces, r.asked);
      var pruned := Pruned(nonces, r.asked);
      if Fresh(nonces, r.nonce, r.asked) {
        var after := pruned[r.nonce := r.asked + LIFETIME];
        assert after.Keys == pruned.Keys + {r.nonce};
        assert |after| == |after.Keys|;
      }
    }
  }

  /** A well-signed, timely request is refused for one of two reasons only: its nonce was spent
      and is still live, or as many nonces are live as the cache holds. */
  lemma RefusedOnlyIfSeenOrFull(nonces: Nonces, r: Request, booted: real)
    requires ReachesNonce(r, booted)
    ensures AnswerTo(nonces, r, booted) == ReplayedSignature <==>
      || (r.nonce in nonces && nonces[r.nonce] > r.asked)
      || |Live(nonces, r.asked)| >= MAX_NONCES
  {
    LiveIsFewer(nonces, r.asked);
  }

  // ----- what each answer says of the request

  predicate Complete(r: Request) { r.named && r.ts.Some? && 16 <= |r.nonce| <= 128 && r.sigLength <= 256 }

  /** Signed for a time at most half a minute off the first reading, and for no second that was
      over when the server started. */
  predicate Current(r: Request, booted: real)
    requires r.ts.Some?
  {
    var ts := r.ts.value as real;
    ts - 30.0 <= r.seen <= ts + 30.0 && ts + 1.0 > booted
  }

  /** Which answer a request gets, by its own parts: accepted means complete, current, signed, its
      nonce not live and room for it; and of several reasons to refuse the first one is given. */
  lemma AnswerMeans(nonces: Nonces, r: Request, booted: real)
    requires booted >= 0.0
    ensures AnswerTo(nonces, r, booted) == Accepted <==>
      Complete(r) && Current(r, booted) && r.signed && !LiveNonce(nonces, r) && |Live(nonces, r.asked)| < 20000
    ensures AnswerTo(nonces, r, booted) == StaleSignature <==> Complete(r) && !Current(r, booted)
    ensures AnswerTo(nonces, r, booted) == InvalidSignature <==> !Complete(r) || (Current(r, booted) && !r.signed)
  {
    LiveIsFewer(nonces, r.asked);
    if r.ts.Some? {
      Seconds(r.ts.value, booted);
    }
  }

  predicate LiveNonce(nonces: Nonces, r: Request) { r.nonce in nonces && nonces[r.nonce] > r.asked }

  lemma Seconds(ts: int, booted: real)
    requires booted >= 0.0
    ensures ts >= Truncated(booted) <==> ts as real + 1.0 > booted
  {
    assert booted.Floor as real <= booted < booted.Floor as real + 1.0;
  }

  // ----- across restarts

  predicate CopyOf(copy: Request, r: Request) {
    copy.named == r.named && copy.ts == r.ts && copy.nonce == r.nonce && copy.sigLength == r.sigLength && copy.signed == r.signed
  }

  /** What one process served, from its start on. The next one starts with an empty cache. */
  datatype Process = Process(booted: real, requests: seq<Request>)

  predicate AcceptedBy(process: Process, i: nat)
    requires i < |process.requests|
  {
    IsAccepted(process.requests, i, process.booted)
  }

  lemma AcceptedMeans(process: Process, i: nat)
    requires process.booted >= 0.0 && i < |process.requests| && AcceptedBy(process, i)
    ensures var r := process.requests[i]; Complete(r) && Current(r, process.booted) && r.signed
  {
    AnswerMeans(Run(process.requests[..i], process.booted), process.requests[i], process.booted);
  }

  /** A copy of `r` is accepted by some process that starts at `booted`. */
  ghost predicate AcceptedAfter(r: Request, booted: real) {
    exists later: seq<Request>, j: nat ::
      j < |later| && CopyOf(later[j], r) && later[j].seen >= booted && IsAccepted(later, j, booted)
  }

  /** Of a request that one process has accepted: a process that starts later can accept a copy of
      it if and only if the second it was signed for is not over when that process starts. */
  lemma AcceptedAgainExactly(earlier: Process, i: nat, booted: real)
    requires earlier.booted >= 0.0 && booted >= 0.0 && i < |earlier.requests| && AcceptedBy(earlier, i)
    ensures AcceptedAfter(earlier.requests[i], booted) <==> earlier.requests[i].ts.value as real + 1.0 > booted
  {
    var r := earlier.requests[i];
    AcceptedMeans(earlier, i);
    if AcceptedAfter(r, booted) {
      var later: seq<Request>, j: nat :| j < |later| && CopyOf(later[j], r) && later[j].seen >= booted && IsAccepted(later, j, booted);
      AcceptedMeans(Process(booted, later), j);
    } else if r.ts.value as real + 1.0 > booted {
      var ts := r.ts.value as real;
      var at := if booted < ts then ts else booted;
      var copy := r.(seen := at, asked := at, locked := at);
      FirstIsAccepted(copy, booted);
      assert IsAccepted([copy], 0, booted) && CopyOf([copy][0], r);
    }
  }

  lemma FirstIsAccepted(r: Request, booted: real)
    requires booted >= 0.0 && Complete(r) && Current(r, booted) && r.signed
    ensures IsAccepted([r], 0, booted)
  {
    assert [r][..0] == [];
    assert Run([r][..0], booted) == map[] && Live(map[], r.asked) == map[];
    AnswerMeans(map[], r, booted);
  }

  /** Half a minute ahead of the clock, accepted, and accepted again after a restart. */
  lemma AcceptedByBoth()
    ensures var r := Request(true, Some(130), A_NONCE, 64, true, 100.0, 100.0, 100.0);
      && AcceptedBy(Process(50.0, [r]), 0)
      && AcceptedBy(Process(110.0, [r.(seen := 110.0, asked := 110.0, locked := 110.0)]), 0)
  {
    var r := Request(true, Some(130), A_NONCE, 64, true, 100.0, 100.0, 100.0);
    FirstIsAccepted(r, 50.0);
    FirstIsAccepted(r.(seen := 110.0, asked := 110.0, locked := 110.0), 110.0);
  }

  /** Every process starts when the seconds signed for in all it inherits are over. */
  ghost predicate StartsClear(life: seq<Process>) {
    forall p, q, i | 0 <= p < q < |life| && 0 <= i < |life[p].requests| && AcceptedBy(life[p], i) ::
      life[p].requests[i].ts.Some? && life[p].requests[i].ts.value as real + 1.0 <= life[q].booted
  }

  /** Then a signed request is accepted once over the whole life of the server, restarts and all. */
  lemma AcceptedOnceInALife(life: seq<Process>, gap: real, p: nat, i: nat, q: nat, j: nat)
    requires gap < 2.0 * SIGN_WINDOW && forall k | 0 <= k < |life| :: life[k].booted >= 0.0 && Timely(life[k].requests, gap)
    requires StartsClear(life)
    requires p <= q < |life| && i < |life[p].requests| && j < |life[q].requests| && (p == q ==> i < j)
    requires CopyOf(life[q].requests[j], life[p].requests[i]) && AcceptedBy(life[p], i)
    ensures !AcceptedBy(life[q], j)
  {
    if p == q {
      AcceptedOnce(life[p].requests, gap, i, j, life[p].booted);
    } else if AcceptedBy(life[q], j) {
      AcceptedMeans(life[q], j);
    }
  }

  // ----- the object

  class ClientAuth {
    var nonces: Nonces
    const booted: real

    constructor (booted: real)
      ensures nonces == map[] && this.booted == booted
    {
      nonces, this.booted := map[], booted;
    }

    method NonceFresh(nonce: string, now: real) returns (ok: bool)
      modifies this
      ensures ok == Fresh(old(nonces), nonce, now) && nonces == Spent(old(nonces), nonce, now)
    {
      if |nonces| >= MAX_NONCES {
        nonces := map n | n in nonces && nonces[n] > now :: nonces[n];
        if |nonces| >= MAX_NONCES {
          return false;
        }
      }
      if nonce in nonces && nonces[nonce] > now {
        return false;
      }
      nonces := nonces[nonce := now + 4.0 * SIGN_WINDOW];
      ok := true;
    }

    method FromSigned(r: Request) returns (answer: Answer)
      modifies this
      ensures answer == AnswerTo(old(nonces), r, booted)
      ensures nonces == After(old(nonces), r, booted)
      ensures answer != Accepted && answer != ReplayedSignature ==> nonces == old(nonces)
    {
      if !r.named {
        return InvalidSignature;
      }
      if !(16 <= |r.nonce| <= 128) || r.sigLength > 256 || r.ts.None? {
        return InvalidSignature;
      }
      var off := r.seen - r.ts.value as real;
      if off > SIGN_WINDOW || off < -SIGN_WINDOW || r.ts.value < Truncated(booted) {
        return StaleSignature;
      }
      if !r.signed {
        return InvalidSignature;
      }
      var ok := NonceFresh(r.nonce, r.asked);
      answer := if ok then Accepted else ReplayedSignature;
    }

    /** Every request in turn, as they get the lock. */
    method Serve(requests: seq<Request>) returns (answers: seq<Answer>)
      requires nonces == map[]
      modifies this
      ensures nonces == Run(requests, booted) && |answers| == |requests|
      ensures forall i | 0 <= i < |requests| :: answers[i].Accepted? <==> IsAccepted(requests, i, booted)
      ensures (exists gap :: Timely(requests, gap) && gap < 2.0 * SIGN_WINDOW) ==> AcceptsAtMostOnce(requests, booted)
    {
      answers := [];
      for n := 0 to |requests|
        invariant nonces == Run(requests[..n], booted) && |answers| == n
        invariant forall i | 0 <= i < n :: answers[i].Accepted? <==> IsAccepted(requests, i, booted)
      {
        assert requests[..n + 1][..n] == requests[..n];
        var answer := FromSigned(requests[n]);
        answers := answers + [answer];
      }
      assert requests[..|requests|] == requests;
      if gap :| Timely(requests, gap) && gap < 2.0 * SIGN_WINDOW {
        BoundedCacheSuffices(gap);
      }
    }
  }
}

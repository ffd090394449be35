/**
 The repetition breaker (repetition.py): three rules over the calls a session has
 executed, kept by streaming counters and stated over the whole history of calls.
 */
module Repetition {
  import opened Options

  // One recorded call: its signature, its tool, and whether it was an error or a revert.
  datatype Call = Call(signature: string, tool: string, bad: bool)

  datatype Limits = Limits(identical: nat, window: nat, minDistinct: nat, sameToolErrors: nat)

  datatype Trip =
    | IdenticalCall(signature: string, count: nat)
    | WindowDiversity(window: nat, signatures: set<string>)
    | SameToolErrors(tool: string, count: nat)

  // --- the rules, stated of a history ---------------------------------------------

  // The last `k` calls have one signature.
  predicate SameSignatureTail(h: seq<Call>, k: nat) {
    k <= |h| && forall i :: |h| - k <= i < |h| ==> h[i].signature == h[|h| - 1].signature
  }

  // The last `k` calls are of one tool and every one of them went wrong.
  predicate SameToolErrorTail(h: seq<Call>, k: nat) {
    k <= |h| && forall i :: |h| - k <= i < |h| ==> h[i].bad && h[i].tool == h[|h| - 1].tool
  }

  function Signatures(h: seq<Call>): set<string> {
    set c | c in h :: c.signature
  }

  predicate LowDiversityTail(h: seq<Call>, window: nat, minDistinct: nat) {
    window <= |h| && |Signatures(h[|h| - window..])| <= minDistinct
  }

  // --- the counters of a history ----------------------------------------------------

  function SignatureStreak(h: seq<Call>): nat {
    var n := |h|;
    if n == 0 then 0
    else if n > 1 && h[n - 2].signature == h[n - 1].signature then 1 + SignatureStreak(h[..n - 1])
    else 1
  }

  function ErrorStreak(h: seq<Call>): nat {
    var n := |h|;
    if n == 0 || !h[n - 1].bad then 0
    else if n > 1 && h[n - 2].bad && h[n - 2].tool == h[n - 1].tool then 1 + ErrorStreak(h[..n - 1])
    else 1
  }

  // Each counter is the length of the longest tail of its kind.
  lemma {:induction false} SignatureStreakIsLongest(h: seq<Call>, k: nat)
    ensures SameSignatureTail(h, k) <==> k <= SignatureStreak(h)
  {
    var n := |h|;
    if n > 1 && k > 0 {
      var g := h[..n - 1];
      SignatureStreakIsLongest(g, k - 1);
      if SameSignatureTail(h, k) && k > 1 {
        assert h[n - 2].signature == h[n - 1].signature;
        assert forall i :: |g| - (k - 1) <= i < |g| ==> g[i] == h[i];
      }
      if h[n - 2].signature == h[n - 1].signature && SameSignatureTail(g, k - 1) {
        assert forall i :: n - k <= i < n - 1 ==> h[i] == g[i];
      }
    }
  }

  lemma {:induction false} ErrorStreakIsLongest(h: seq<Call>, k: nat)
    ensures SameToolErrorTail(h, k) <==> k <= ErrorStreak(h)
  {
    var n := |h|;
    if n > 1 && k > 0 {
      var g := h[..n - 1];
      ErrorStreakIsLongest(g, k - 1);
      if SameToolErrorTail(h, k) && k > 1 {
        assert h[n - 2].bad && h[n - 2].tool == h[n - 1].tool;
        assert forall i :: |g| - (k - 1) <= i < |g| ==> g[i] == h[i];
      }
      if h[n - 1].bad && h[n - 2].bad && h[n - 2].tool == h[n - 1].tool && SameToolErrorTail(g, k - 1) {
        assert forall i :: n - k <= i < n - 1 ==> h[i] == g[i];
      }
    } else if n == 1 && k > 0 {
      assert SameToolErrorTail(h, 1) <==> h[0].bad;
    }
  }

  // --- the verdict ------------------------------------------------------------------

  function Tail(h: seq<Call>, window: nat): seq<Call> {
    if |h| <= window then h else h[|h| - window..]
  }

  // The deque of the last `window` signatures.
  function Window(h: seq<Call>, window: nat): (recent: seq<string>)
    ensures |recent| == |Tail(h, window)|
  {
    var tail := Tail(h, window);
    seq(|tail|, i requires 0 <= i < |tail| => tail[i].signature)
  }

  // How one more call moves the deque and the two counters.
  lemma OneMoreCall(h: seq<Call>, window: nat, c: Call)
    ensures var longer := Window(h, window) + [c.signature];
            Window(h + [c], window) == if |longer| > window then longer[1..] else longer
    ensures SignatureStreak(h + [c])
            == if h != [] && h[|h| - 1].signature == c.signature then SignatureStreak(h) + 1 else 1
    ensures ErrorStreak(h + [c])
            == if !c.bad then 0
               else if h != [] && h[|h| - 1].bad && h[|h| - 1].tool == c.tool then ErrorStreak(h) + 1 else 1
  {
    assert (h + [c])[..|h|] == h;
  }

  function Verdict(l: Limits, h: seq<Call>): Option<Trip>
    requires h != []
  {
    var last := h[|h| - 1];
    if SignatureStreak(h) >= l.identical then Some(IdenticalCall(last.signature, SignatureStreak(h)))
    else if LowDiversityTail(h, l.window, l.minDistinct)
    then Some(WindowDiversity(l.window, Signatures(Tail(h, l.window))))
    else if ErrorStreak(h) >= l.sameToolErrors then Some(SameToolErrors(last.tool, ErrorStreak(h)))
    else None
  }

  // A call trips exactly when one of the three rules holds of the history it ends,
  // and the first rule that holds is the one named.
  lemma TripsExactlyWhenARuleHolds(l: Limits, h: seq<Call>)
    requires h != []
    ensures Verdict(l, h).None? <==>
              !SameSignatureTail(h, l.identical) && !LowDiversityTail(h, l.window, l.minDistinct)
              && !SameToolErrorTail(h, l.sameToolErrors)
    ensures SameSignatureTail(h, l.identical) <==> (Verdict(l, h).Some? && Verdict(l, h).value.IdenticalCall?)
    ensures (LowDiversityTail(h, l.window, l.minDistinct) && !SameSignatureTail(h, l.identical))
            <==> (Verdict(l, h).Some? && Verdict(l, h).value.WindowDiversity?)
  {
    SignatureStreakIsLongest(h, l.identical);
    ErrorStreakIsLongest(h, l.sameToolErrors);
  }

  ghost predicate NeverTripped(l: Limits, h: seq<Call>) {
    forall k :: 1 <= k <= |h| ==> Verdict(l, h[..k]).None?
  }

  // No stretch of a session that never tripped breaks a rule, wherever it lies.
  lemma UntrippedHistoryHasNoViolation(l: Limits, h: seq<Call>, end: nat)
    requires NeverTripped(l, h) && 1 <= end <= |h|
    ensures !SameSignatureTail(h[..end], l.identical)
    ensures !SameToolErrorTail(h[..end], l.sameToolErrors)
    ensures l.window <= end ==> |Signatures(h[end - l.window..end])| > l.minDistinct
  {
    assert Verdict(l, h[..end]).None?;
    TripsExactlyWhenARuleHolds(l, h[..end]);
    if l.window <= end {
      assert h[..end][end - l.window..] == h[end - l.window..end];
    }
  }

  // --- the streaming tracker ----------------------------------------------------------

  class RepetitionTracker {
    const limits: Limits
    ghost var history: seq<Call>
    var lastSignature: Option<string>
    var identicalStreak: nat
    var recent: seq<string>
    var streakTool: Option<string>
    var streak: nat

    ghost predicate Valid()
      reads this
    {
      && lastSignature == (if history == [] then None else Some(history[|history| - 1].signature))
      && identicalStreak == SignatureStreak(history)
      && recent == Window(history, limits.window)
      && streakTool
         == (if history == [] || !history[|history| - 1].bad then None else Some(history[|history| - 1].tool))
      && streak == ErrorStreak(history)
    }

    constructor (limits: Limits)
      ensures Valid() && history == [] && this.limits == limits
    {
      this.limits := limits;
      history, lastSignature, identicalStreak, recent, streakTool, streak := [], None, 0, [], None, 0;
    }

    method Record(signature: string, name: string, errorOrRevert: bool) returns (trip: Option<Trip>)
      requires Valid()
      modifies this
      ensures Valid() && history == old(history) + [Call(signature, name, errorOrRevert)]
      ensures trip == Verdict(limits, history)
    {
      hide SignatureStreak, ErrorStreak, Window, Tail, LowDiversityTail, Signatures;
      Fold(signature, name, errorOrRevert);
      if identicalStreak >= limits.identical {
        return Some(IdenticalCall(signature, identicalStreak));
      }
      WindowRule(limits, history, recent);
      if |recent| >= limits.window {
        var distinct := set s | s in recent;
        if |distinct| <= limits.minDistinct {
          return Some(WindowDiversity(limits.window, distinct));
        }
      }
      if streak >= limits.sameToolErrors {
        return Some(SameToolErrors(name, streak));
      }
      return None;
    }

    // The counters' part of one record.
    method Fold(signature: string, name: string, errorOrRevert: bool)
      requires Valid()
      modifies this
      ensures Valid() && history == old(history) + [Call(signature, name, errorOrRevert)]
    {
      hide SignatureStreak, ErrorStreak, Window, Tail;
      OneMoreCall(history, limits.window, Call(signature, name, errorOrRevert));
      FoldSignature(signature);
      FoldWindow(signature);
      FoldErrors(name, errorOrRevert);
      history := history + [Call(signature, name, errorOrRevert)];
    }

    method FoldSignature(signature: string)
      modifies `lastSignature, `identicalStreak
      ensures lastSignature == Some(signature)
      ensures identicalStreak == if old(lastSignature) == Some(signature) then old(identicalStreak) + 1 else 1
    {
      if lastSignature == Some(signature) {
        identicalStreak := identicalStreak + 1;
      } else {
        lastSignature := Some(signature);
        identicalStreak := 1;
      }
    }

    method FoldWindow(signature: string)
      modifies `recent
      ensures var longer := old(recent) + [signature];
              recent == if |longer| > limits.window then longer[1..] else longer
    {
      recent := recent + [signature];
      if |recent| > limits.window {
        recent := recent[1..];
      }
    }

    method FoldErrors(name: string, errorOrRevert: bool)
      modifies `streakTool, `streak
      ensures streakTool == if errorOrRevert then Some(name) else None
      ensures streak == if !errorOrRevert then 0 else if old(streakTool) == Some(name) then old(streak) + 1 else 1
    {
      if errorOrRevert {
        if Some(name) == streakTool {
          streak := streak + 1;
        } else {
          streakTool := Some(name);
          streak := 1;
        }
      } else {
        streakTool := None;
        streak := 0;
      }
    }
  }

  // The window rule, tested on the deque.
  lemma WindowRule(l: Limits, h: seq<Call>, recent: seq<string>)
    requires recent == Window(h, l.window)
    ensures (|recent| >= l.window && |set s | s in recent| <= l.minDistinct)
            <==> LowDiversityTail(h, l.window, l.minDistinct)
    ensures (set s | s in recent) == Signatures(Tail(h, l.window))
  {
    hide Window, Signatures, Tail;
    WindowCounts(h, l.window, recent);
  }

  // What the deque says of the window rule.
  lemma WindowCounts(h: seq<Call>, window: nat, recent: seq<string>)
    requires recent == Window(h, window)
    ensures |recent| >= window <==> window <= |h|
    ensures (set s | s in recent) == Signatures(Tail(h, window))
    ensures window <= |h| ==> Tail(h, window) == h[|h| - window..]
  {
    var tail := Tail(h, window);
    forall s | s in Signatures(tail)
      ensures s in recent
    {
      var c :| c in tail && c.signature == s;
      var i :| 0 <= i < |tail| && tail[i] == c;
      assert recent[i] == s;
    }
    forall s | s in recent
      ensures s in Signatures(tail)
    {
      var i :| 0 <= i < |recent| && recent[i] == s;
      assert tail[i] in tail;
    }
  }
}

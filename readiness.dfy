/**
 * `bench/wait.mjs`: after a deploy, poll the dummy functions of every
 * non-control target until all of them are `Active`, for at most 11
 * rounds, sleeping one second between rounds.  The answers of
 * `Lambda.GetFunction` are an input: one table per round.
 */
module Readiness {
  import opened Wrappers
  import opened Js
  import opened Streams
  import opened Ordering
  import Plugin

  /** The functions to check: `n('dummy-' + name)` for every target except `control`, in order. */
  function Checking(names: seq<string>, n: string -> string): (r: seq<string>)
    ensures |r| <= |names|
    ensures forall f :: f in r <==> exists name :: name in names && name != "control" && f == n("dummy-" + name)
  {
    if names == [] then []
    else
      var rest := Checking(names[1..], n);
      assert forall name :: name in names[1..] ==> name in names;
      assert forall name :: name in names ==> name == names[0] || name in names[1..];
      if names[0] == "control" then rest else [n("dummy-" + names[0])] + rest
  }

  /**
   * The list keeps the order of the target names: checking two lists one
   * after the other is checking their concatenation, so the function named
   * first is the one `Round` reports first.
   */
  lemma {:induction false} CheckingAppend(a: seq<string>, b: seq<string>, n: string -> string)
    ensures Checking(a + b, n) == Checking(a, n) + Checking(b, n)
  {
    if a != [] {
      assert (a + b)[0] == a[0] && (a + b)[1..] == a[1..] + b;
      CheckingAppend(a[1..], b, n);
      var head := if a[0] == "control" then [] else [n("dummy-" + a[0])];
      assert Checking(a + b, n) == head + Checking(a[1..] + b, n);
      assert Checking(a, n) == head + Checking(a[1..], n);
      assert head + (Checking(a[1..], n) + Checking(b, n)) == (head + Checking(a[1..], n)) + Checking(b, n);
    } else {
      assert a + b == b;
    }
  }

  /** One name: `control` is not checked; any other target is checked through its dummy function. */
  lemma CheckingOne(name: string, n: string -> string)
    ensures Checking([name], n) == if name == "control" then [] else [n("dummy-" + name)]
  {
    assert [name][1..] == [];
  }

  lemma CheckingTargets(n: string -> string)
    ensures Checking(Plugin.Names, n) == [n("dummy-aws-lite-raw"), n("dummy-aws-sdk-v3-raw")]
  {
    var last: seq<string> := ["aws-sdk-v3-raw"];
    var both: seq<string> := ["aws-lite-raw"] + last;
    assert Plugin.Names == ["control"] + both;
    assert Checking(last, n) == [n("dummy-aws-sdk-v3-raw")] by {
      assert last[1..] == [] && last[0] != "control";
      assert "dummy-" + last[0] == "dummy-aws-sdk-v3-raw";
    }
    assert Checking(both, n) == [n("dummy-aws-lite-raw")] + Checking(last, n) by {
      assert both[1..] == last && both[0] != "control";
      assert "dummy-" + both[0] == "dummy-aws-lite-raw";
    }
    assert Plugin.Names[1..] == both;
  }

  /**
   * The answers of `GetFunction` in one round: those `listed` by function
   * name, and `rest` for every other function.
   */
  datatype Answers = Answers(listed: map<string, Result<Value>>, rest: Result<Value>)

  /** What `GetFunction` answers for `name` in this round. */
  function Answer(answers: Answers, name: string): Result<Value> {
    if name in answers.listed then answers.listed[name] else answers.rest
  }

  /** The internal marker of a function that is not yet `Active`. */
  const Retry := "retry_checks"

  /** One check: resolves when the function's `Configuration.State` is `Active`, rejects otherwise. */
  function Probe(answers: Answers, name: string): Result<()> {
    var response :- Answer(answers, name);
    var configuration :- Get(response, "Configuration");
    var state :- Get(configuration, "State");
    if state == Str("Active") then Success(()) else Failure(Retry)
  }

  /** `await Promise.all(checks)`: the first rejection, in list order, or success. */
  function Round(answers: Answers, checking: seq<string>): Result<()> {
    if checking == [] then Success(())
    else
      var first := Probe(answers, checking[0]);
      if first.Failure? then first else Round(answers, checking[1..])
  }

  /** A round succeeds iff every check resolves; otherwise it fails as one of the checks does. */
  lemma {:induction false} RoundIsAll(answers: Answers, checking: seq<string>)
    ensures Round(answers, checking).Success? <==> forall f :: f in checking ==> Probe(answers, f).Success?
    ensures Round(answers, checking).Failure? ==> exists f :: f in checking && Probe(answers, f) == Round(answers, checking)
  {
    if checking != [] {
      RoundIsAll(answers, checking[1..]);
      assert forall f :: f in checking ==> f == checking[0] || f in checking[1..];
    }
  }

  function NotReady(tries: nat): string {
    "Dummy resources not ready after " + NatString(tries) + " tries"
  }

  /** Every round before the `n`-th was not ready. */
  predicate RetriedBefore(checking: seq<string>, rounds: Stream<Answers>, n: nat) {
    forall k :: 0 <= k < n ==> Round(At(rounds, k), checking) == Failure(Retry)
  }

  lemma RetriedExtends(checking: seq<string>, rounds: Stream<Answers>, n: nat)
    requires RetriedBefore(checking, rounds, n) && Round(At(rounds, n), checking) == Failure(Retry)
    ensures RetriedBefore(checking, rounds, n + 1)
  {
  }

  /**
   * `waitForUpdatedResources` from `tries = 0`: it returns iff a round finds
   * every checked function `Active`; an error other than `retry_checks`
   * is thrown at once; after the 11th round that is not ready it gives up.
   * `sleeps` counts the one-second waits.
   */
  method Check(checking: seq<string>, rounds: Stream<Answers>) returns (r: Result<()>, tries: nat, sleeps: nat)
    ensures 1 <= tries <= 11 && sleeps == tries - 1
    ensures forall k :: 0 <= k < tries - 1 ==> Round(At(rounds, k), checking) == Failure(Retry)
    ensures r.Success? <==> Round(At(rounds, tries - 1), checking).Success?
    ensures Round(At(rounds, tries - 1), checking) != Failure(Retry) ==> r == Round(At(rounds, tries - 1), checking)
    ensures Round(At(rounds, tries - 1), checking) == Failure(Retry) ==> tries == 11 && r == Failure(NotReady(11))
  {
    tries, sleeps := 0, 0;
    while true
      invariant 0 <= tries <= 10 && sleeps == tries
      invariant RetriedBefore(checking, rounds, tries)
      decreases 10 - tries
    {
      tries := tries + 1;
      var verdict := Round(At(rounds, tries - 1), checking);
      if verdict.Success? {
        return verdict, tries, sleeps;
      }
      if verdict.error != Retry {
        return verdict, tries, sleeps;
      }
      RetriedExtends(checking, rounds, tries - 1);
      if tries > 10 {
        return Failure(NotReady(tries)), tries, sleeps;
      }
      sleeps := sleeps + 1;
    }
  }

  /** A round in which every function is `Active` ends the wait at once, whatever comes after. */
  lemma ReadyRoundEnds(checking: seq<string>, answers: Answers)
    requires forall f :: f in checking ==> (
      && Answer(answers, f).Success?
      && Get(Answer(answers, f).value, "Configuration").Success?
      && Get(Get(Answer(answers, f).value, "Configuration").value, "State") == Success(Str("Active")))
    ensures Round(answers, checking) == Success(())
  {
    RoundIsAll(answers, checking);
  }

  /**
   * A `GetFunction` call that rejects (a function the account lacks, say),
   * checked after functions that are all `Active`, makes the round fail
   * with that rejection.  Unless its message is `retry_checks`, `Check`
   * rethrows it at once.
   */
  lemma {:induction false} RejectedCallFails(checking: seq<string>, answers: Answers, i: nat)
    requires i < |checking| && Answer(answers, checking[i]).Failure?
    requires forall j :: 0 <= j < i ==> Probe(answers, checking[j]).Success?
    ensures Round(answers, checking) == Failure(Answer(answers, checking[i]).error)
    ensures Answer(answers, checking[i]).error != Retry ==> Round(answers, checking) != Failure(Retry)
  {
    if i > 0 {
      RejectedCallFails(checking[1..], answers, i - 1);
    }
  }
}

/**
 * What the deploy loop guarantees, proved about the functions of module
 * Deploy (and so, through the contracts of class Deployer, about the
 * imperative run): the startup gate, the fatal-versus-continue split, the
 * per-unit pipeline, one transfer per unit at most, bounded polling, glob
 * order, and the order of the seqnos the transfers consume.
 */
module DeployProperties {
  import opened Wrappers
  import opened Ton
  import opened Network
  import opened Deploy

  /** How a stopped run names the unit that stopped it. */
  predicate StoppedAt(result: RunResult, r: Report)
  {
    match result
    case Exit(code, reason) =>
      code == 1 && r.outcome.LoadFailed?
      && (reason == NoInitData(r.file) || reason == NoInitMessage(r.file) || reason == NoArtifact(r.file))
    case Rejected(file) => file == r.file && IsFatal(r.outcome)
    case _ => false
  }

  /** Every transfer in the log consumed a seqno no larger than any later one, and none above the wallet's seqno now. */
  ghost predicate SeqnosOrdered(s: State)
  {
    (forall i, j :: 0 <= i < j < |s.sent| ==> s.sent[i].seqno <= s.sent[j].seqno)
    && (forall i :: 0 <= i < |s.sent| ==> s.sent[i].seqno <= s.chain.seqno)
  }

  // ---------------------------------------------------------------------
  // Helpers on call logs
  // ---------------------------------------------------------------------

  lemma {:induction false} SubmittedAppend(a: seq<Call>, b: seq<Call>)
    ensures Submitted(a + b) == Submitted(a) + Submitted(b)
    decreases |a|
  {
    if a == [] {
      assert a + b == b;
    } else {
      assert (a + b)[0] == a[0];
      assert (a + b)[1..] == a[1..] + b;
      SubmittedAppend(a[1..], b);
    }
  }

  lemma {:induction false} SubmittedNone(calls: seq<Call>)
    requires forall j :: 0 <= j < |calls| ==> !calls[j].Submit?
    ensures Submitted(calls) == []
    decreases |calls|
  {
    if calls != [] {
      SubmittedNone(calls[1..]);
    }
  }

  lemma {:induction false} TransfersAppend(rs: seq<Report>, r: Report)
    ensures Transfers(rs + [r]) == Transfers(rs) + Submitted(r.calls)
    decreases |rs|
  {
    if rs == [] {
      assert rs + [r] == [r];
      assert [r][1..] == [];
    } else {
      assert (rs + [r])[0] == rs[0];
      assert (rs + [r])[1..] == rs[1..] + [r];
      TransfersAppend(rs[1..], r);
    }
  }

  // ---------------------------------------------------------------------
  // The confirmation loop
  // ---------------------------------------------------------------------

  /**
   * The confirmation loop is bounded: it makes at most `10 - attempt`
   * attempts (at least one if any is left), every attempt is a delay and a
   * seqno read, it goes on only while the reading is not above `before`, and
   * it stops early only on a reading above `before`. The chain only moves
   * forward meanwhile, and nothing is submitted.
   */
  lemma {:induction false} PollBounded(c: Chain, before: nat, attempt: nat)
    requires attempt <= MaxPollAttempts
    decreases MaxPollAttempts - attempt
    ensures var r := Poll(c, before, attempt);
      |r.1| <= MaxPollAttempts - attempt
      && (attempt < MaxPollAttempts ==> |r.1| >= 1)
      && (forall j :: 0 <= j < |r.1| ==> r.1[j].PollRead?)
      && (forall j :: 0 <= j < |r.1| - 1 ==> r.1[j].observed <= before)
      && (0 < |r.1| < MaxPollAttempts - attempt ==> r.1[|r.1| - 1].observed > before)
      && c.seqno <= r.0.seqno && c.deployed <= r.0.deployed
      && (r.1 != [] ==> r.1[|r.1| - 1].observed == r.0.seqno)
  {
    if attempt < MaxPollAttempts {
      var c1 := Advance(c);
      if c1.seqno <= before {
        PollBounded(c1, before, attempt + 1);
        var rest := Poll(c1, before, attempt + 1);
        var polls := [PollRead(c1.seqno)] + rest.1;
        assert Poll(c, before, attempt).1 == polls;
        assert forall j :: 1 <= j < |polls| ==> polls[j] == rest.1[j - 1];
      }
    }
  }

  /** A full confirmation loop (from attempt 0) leaves a well-formed window and submits nothing. */
  lemma PollWindowFromStart(c: Chain, before: nat)
    ensures PollWindow(Poll(c, before, 0).1, before)
    ensures Submitted(Poll(c, before, 0).1) == []
    ensures c.seqno <= Poll(c, before, 0).0.seqno && c.deployed <= Poll(c, before, 0).0.deployed
  {
    PollBounded(c, before, 0);
    SubmittedNone(Poll(c, before, 0).1);
  }

  /**
   * When the network never moves, all ten attempts run, each reading the
   * same seqno, and the chain is left as it was.
   */
  lemma {:induction false} PollFrozen(c: Chain, before: nat, attempt: nat)
    requires attempt <= MaxPollAttempts
    requires c.ticks == [] && c.seqno <= before
    decreases MaxPollAttempts - attempt
    ensures Poll(c, before, attempt).0 == c
    ensures |Poll(c, before, attempt).1| == MaxPollAttempts - attempt
    ensures forall j :: 0 <= j < MaxPollAttempts - attempt ==> Poll(c, before, attempt).1[j] == PollRead(c.seqno)
  {
    if attempt < MaxPollAttempts {
      PollFrozen(c, before, attempt + 1);
      var rest := Poll(c, before, attempt + 1).1;
      assert Poll(c, before, attempt).1 == [PollRead(c.seqno)] + rest;
    }
  }

  // ---------------------------------------------------------------------
  // One unit
  // ---------------------------------------------------------------------

  /**
   * Loading (`build/_deploy.ts` lines 97-114): a descriptor without an
   * `initData` function, without an `initMessage` function, or without its
   * compiled artifact ends the run with exit status 1 at that unit, naming
   * it; `initData()` has already been awaited when `initMessage` is found
   * missing; the chain and the transfer log are left as they were.
   */
  lemma LoadChecks(s: State, d: Descriptor, derive: Deriver)
    requires s.result.Running?
    ensures var r := ProcessUnit(s, d, derive);
      (r.result.Exit? <==> d.initData.None? || d.initMessage.None? || d.artifact.Missing?)
      && (d.initData.None? ==>
            r.result == Exit(1, NoInitData(d.file)) && r.reports == s.reports + [Report(d.file, LoadFailed, [])])
      && (d.initData.Some? && d.initMessage.None? ==>
            r.result == Exit(1, NoInitMessage(d.file))
            && r.reports == s.reports + [Report(d.file, LoadFailed, [InitDataCall])])
      && (d.initData.Some? && d.initMessage.Some? && d.artifact.Missing? ==>
            r.result == Exit(1, NoArtifact(d.file))
            && r.reports == s.reports + [Report(d.file, LoadFailed, [InitDataCall, InitMessageCall])])
      && (r.result.Exit? ==> r.sent == s.sent && r.chain == s.chain)
  {
  }

  /**
   * Address derivation (lines 117-129): when `contractAddress` throws, the
   * unit makes no deployed check, no seqno read and no transfer, and the
   * loop goes on.
   */
  lemma AddressErrorContinues(s: State, d: Descriptor, derive: Deriver)
    requires s.result.Running?
    requires d.initData.Some? && d.initMessage.Some? && d.artifact.Compiled?
    requires derive(Workchain, d.initData.value, d.artifact.code).None?
    ensures var r := ProcessUnit(s, d, derive);
      r.result.Running? && r.sent == s.sent && r.chain == s.chain
      && r.reports == s.reports + [Report(d.file, AddressError, [InitDataCall, InitMessageCall])]
  {
  }

  /**
   * The deployed check (lines 131-135): a unit whose derived address already
   * holds a contract is skipped after that one query: no seqno read, no
   * transfer, no polling; the loop goes on.
   */
  lemma AlreadyDeployedSkips(s: State, d: Descriptor, derive: Deriver)
    requires s.result.Running?
    requires d.initData.Some? && d.initMessage.Some? && d.artifact.Compiled?
    requires derive(Workchain, d.initData.value, d.artifact.code).Some?
    requires derive(Workchain, d.initData.value, d.artifact.code).value in s.chain.deployed
    ensures var a := derive(Workchain, d.initData.value, d.artifact.code).value;
      var r := ProcessUnit(s, d, derive);
      r.result.Running? && r.sent == s.sent && r.chain == s.chain
      && r.reports == s.reports + [Report(d.file, Skipped(a), [InitDataCall, InitMessageCall, DeployedQuery(a, true)])]
  {
    var a := derive(Workchain, d.initData.value, d.artifact.code).value;
    assert Loaded + [DeployedQuery(a, true)] == [InitDataCall, InitMessageCall, DeployedQuery(a, true)];
  }

  /**
   * The funding transfer (lines 87 and 137-152): a unit that is not skipped
   * sends exactly one transfer. It consumes the seqno read just before it,
   * goes to the derived address with 0.02 TON, `bounce = false`, send mode
   * 1 + 2, the state-init (data, code), and the init message as body only
   * when `initMessage()` gave one.
   */
  lemma OneFundingTransfer(s: State, d: Descriptor, derive: Deriver)
    requires s.result.Running?
    requires d.initData.Some? && d.initMessage.Some? && d.artifact.Compiled?
    requires derive(Workchain, d.initData.value, d.artifact.code).Some?
    requires derive(Workchain, d.initData.value, d.artifact.code).value !in s.chain.deployed
    ensures var a := derive(Workchain, d.initData.value, d.artifact.code).value;
      var r := ProcessUnit(s, d, derive);
      |r.sent| == |s.sent| + 1 && r.sent[..|s.sent|] == s.sent
      && r.sent[|s.sent|] == Transfer(s.chain.seqno, PayGasSeparately + IgnoreErrors, a, Funding, false,
                                      StateInit(d.initData.value, d.artifact.code), d.initMessage.value)
      && |r.reports| == |s.reports| + 1
      && r.reports[|s.reports|].calls[..5]
         == [InitDataCall, InitMessageCall, DeployedQuery(a, false), SeqnoRead(s.chain.seqno), Submit(r.sent[|s.sent|])]
  {
    var r := ProcessUnit(s, d, derive);
    assert r.sent[..|s.sent|] == s.sent;
  }

  /**
   * Confirmation (lines 155-169): after an accepted submission the loop
   * polls as `Poll` says, the outcome is decided only by a fresh deployed
   * check on the chain after polling, and neither outcome stops the run.
   * A submission that throws (line 152 has no `catch`) ends the run instead.
   */
  lemma ConfirmationDecides(s: State, d: Descriptor, derive: Deriver)
    requires s.result.Running?
    requires d.initData.Some? && d.initMessage.Some? && d.artifact.Compiled?
    requires derive(Workchain, d.initData.value, d.artifact.code).Some?
    requires derive(Workchain, d.initData.value, d.artifact.code).value !in s.chain.deployed
    ensures var a := derive(Workchain, d.initData.value, d.artifact.code).value;
      var r := ProcessUnit(s, d, derive);
      var p := Poll(s.chain, s.chain.seqno, 0);
      (|s.sent| in s.rejected ==> r.result == Rejected(d.file) && r.chain == s.chain)
      && (|s.sent| !in s.rejected ==>
            r.result.Running? && r.chain == p.0
            && |r.reports| == |s.reports| + 1
            && (r.reports[|s.reports|].outcome == Deployed(a) <==> a in p.0.deployed)
            && (r.reports[|s.reports|].outcome == NotConfirmed(a) <==> a !in p.0.deployed))
  {
  }

  lemma SubmissionCallsSubmit(a: Address, t: Transfer)
    ensures Submitted(SubmissionCalls(a, t)) == [t]
  {
    var pre := Loaded + [DeployedQuery(a, false), SeqnoRead(t.seqno)];
    assert SubmissionCalls(a, t) == pre + [Submit(t)];
    SubmittedNone(pre);
    SubmittedAppend(pre, [Submit(t)]);
    assert [Submit(t)][1..] == [];
  }

  /** A report for a confirmed unit, built as `Confirm` builds it, follows the pipeline and submits only `t`. */
  lemma DeployedConforms(file: string, addr: Address, t: Transfer, polls: seq<Call>)
    requires IsFunding(t, addr, t.seqno) && PollWindow(polls, t.seqno) && Submitted(polls) == []
    ensures var post := [DeployedQuery(addr, true), BalanceQuery(addr)];
      var rep := Report(file, Deployed(addr), SubmissionCalls(addr, t) + polls + post);
      Conforms(rep) && Submitted(rep.calls) == [t]
  {
    var post := [DeployedQuery(addr, true), BalanceQuery(addr)];
    var cs := SubmissionCalls(addr, t) + polls + post;
    assert cs[..3] == Loaded + [DeployedQuery(addr, false)];
    assert cs[5..|cs| - 2] == polls;
    assert cs[|cs| - 2..] == post;
    SubmissionCallsSubmit(addr, t);
    SubmittedAppend(SubmissionCalls(addr, t), polls);
    SubmittedAppend(SubmissionCalls(addr, t) + polls, post);
    SubmittedNone(post);
  }

  /** A report for an unconfirmed unit, built as `Confirm` builds it, follows the pipeline and submits only `t`. */
  lemma NotConfirmedConforms(file: string, addr: Address, t: Transfer, polls: seq<Call>)
    requires IsFunding(t, addr, t.seqno) && PollWindow(polls, t.seqno) && Submitted(polls) == []
    ensures var post := [DeployedQuery(addr, false)];
      var rep := Report(file, NotConfirmed(addr), SubmissionCalls(addr, t) + polls + post);
      Conforms(rep) && Submitted(rep.calls) == [t]
  {
    var post := [DeployedQuery(addr, false)];
    var cs := SubmissionCalls(addr, t) + polls + post;
    assert cs[..3] == Loaded + [DeployedQuery(addr, false)];
    assert cs[5..|cs| - 1] == polls;
    SubmissionCallsSubmit(addr, t);
    SubmittedAppend(SubmissionCalls(addr, t), polls);
    SubmittedAppend(SubmissionCalls(addr, t) + polls, post);
    SubmittedNone(post);
  }

  /**
   * Confirming a funding transfer appends one report that follows the
   * pipeline and submits nothing beyond `t`; it leaves the log and the result
   * alone and only moves the chain forward.
   */
  lemma ConfirmStep(s: State, file: string, addr: Address, t: Transfer)
    requires IsFunding(t, addr, t.seqno)
    ensures var r := Confirm(s, file, addr, SubmissionCalls(addr, t), t.seqno);
      |r.reports| == |s.reports| + 1 && r.reports[..|s.reports|] == s.reports
      && r.reports[|s.reports|].file == file
      && Conforms(r.reports[|s.reports|]) && !IsFatal(r.reports[|s.reports|].outcome)
      && Submitted(r.reports[|s.reports|].calls) == [t]
      && r.sent == s.sent && r.result == s.result && r.rejected == s.rejected
      && s.chain.seqno <= r.chain.seqno && s.chain.deployed <= r.chain.deployed
  {
    var r := Confirm(s, file, addr, SubmissionCalls(addr, t), t.seqno);
    assert r.reports[..|s.reports|] == s.reports;
    var p := Poll(s.chain, t.seqno, 0);
    PollWindowFromStart(s.chain, t.seqno);
    if addr in p.0.deployed {
      DeployedConforms(file, addr, t, p.1);
    } else {
      NotConfirmedConforms(file, addr, t, p.1);
    }
  }

  /**
   * Submitting a funding transfer appends it to the log and one report that
   * follows the pipeline; the run goes on exactly when the submission did not
   * throw, and a stopped run names this unit.
   */
  lemma FundStep(s: State, file: string, addr: Address, t: Transfer)
    requires s.result.Running? && IsFunding(t, addr, t.seqno)
    ensures var r := Fund(s, file, addr, t);
      |r.reports| == |s.reports| + 1 && r.reports[..|s.reports|] == s.reports
      && r.reports[|s.reports|].file == file
      && Conforms(r.reports[|s.reports|])
      && r.sent == s.sent + [t] && Submitted(r.reports[|s.reports|].calls) == [t]
      && (r.result.Running? <==> !IsFatal(r.reports[|s.reports|].outcome))
      && (!r.result.Running? ==> r.result == Rejected(file) && IsFatal(r.reports[|s.reports|].outcome))
      && r.rejected == s.rejected
      && s.chain.seqno <= r.chain.seqno && s.chain.deployed <= r.chain.deployed
  {
    var r := Fund(s, file, addr, t);
    if |s.sent| in s.rejected {
      assert r.reports[..|s.reports|] == s.reports;
      SubmissionCallsSubmit(addr, t);
    } else {
      ConfirmStep(s.(sent := s.sent + [t]), file, addr, t);
    }
  }

  /**
   * What one pass of the loop body does, from `s` to `r` for the descriptor
   * loaded from `file`: one report is appended, for that file, and it follows
   * the pipeline; the log grows by exactly the transfers that report submits,
   * consuming the seqno the chain held; the run goes on exactly when the
   * outcome is not fatal, and a stopped run names this unit; the chain only
   * moves forward.
   */
  ghost predicate UnitStep(s: State, r: State, file: string)
  {
    |r.reports| == |s.reports| + 1 && r.reports[..|s.reports|] == s.reports
    && r.reports[|s.reports|].file == file
    && Conforms(r.reports[|s.reports|])
    && r.sent == s.sent + Submitted(r.reports[|s.reports|].calls)
    && (forall k :: |s.sent| <= k < |r.sent| ==> r.sent[k].seqno == s.chain.seqno)
    && (r.result.Running? <==> !IsFatal(r.reports[|s.reports|].outcome))
    && (!r.result.Running? ==> StoppedAt(r.result, r.reports[|s.reports|]))
    && r.rejected == s.rejected
    && s.chain.seqno <= r.chain.seqno && s.chain.deployed <= r.chain.deployed
  }

  /** A unit that records a report without submitting anything is a loop step. */
  lemma RecordStep(s: State, file: string, outcome: Outcome, calls: seq<Call>, result: RunResult)
    requires s.result.Running?
    requires Conforms(Report(file, outcome, calls))
    requires forall j :: 0 <= j < |calls| ==> !calls[j].Submit?
    requires result.Running? <==> !IsFatal(outcome)
    requires !result.Running? ==> StoppedAt(result, Report(file, outcome, calls))
    ensures UnitStep(s, Record(s, file, outcome, calls).(result := result), file)
    ensures Record(s, file, outcome, calls).(result := result).chain == s.chain
  {
    var r := Record(s, file, outcome, calls).(result := result);
    assert r.reports[..|s.reports|] == s.reports;
    SubmittedNone(calls);
  }

  /** The funding branch of the loop body is a loop step. */
  lemma FundIsStep(s: State, file: string, addr: Address, t: Transfer)
    requires s.result.Running? && IsFunding(t, addr, t.seqno) && t.seqno == s.chain.seqno
    ensures UnitStep(s, Fund(s, file, addr, t), file)
  {
    FundStep(s, file, addr, t);
  }

  /** Every pass of the loop body is a loop step. */
  lemma ProcessUnitStep(s: State, d: Descriptor, derive: Deriver)
    requires s.result.Running?
    ensures UnitStep(s, ProcessUnit(s, d, derive), d.file)
  {
    if d.initData.None? {
      RecordStep(s, d.file, LoadFailed, [], Exit(1, NoInitData(d.file)));
    } else if d.initMessage.None? {
      RecordStep(s, d.file, LoadFailed, [InitDataCall], Exit(1, NoInitMessage(d.file)));
    } else if d.artifact.Missing? {
      RecordStep(s, d.file, LoadFailed, Loaded, Exit(1, NoArtifact(d.file)));
    } else if d.artifact.Unparsable? {
      RecordStep(s, d.file, LoadFailed, Loaded, Rejected(d.file));
    } else {
      var data, body, code := d.initData.value, d.initMessage.value, d.artifact.code;
      match derive(Workchain, data, code)
      case None =>
        RecordStep(s, d.file, AddressError, Loaded, Running);
      case Some(addr) =>
        if addr in s.chain.deployed {
          RecordStep(s, d.file, Skipped(addr), Loaded + [DeployedQuery(addr, true)], Running);
        } else {
          FundIsStep(s, d.file, addr, FundingTransfer(s.chain.seqno, addr, data, code, body));
        }
    }
  }

  /** One pass of the loop body keeps the seqno order of the log. */
  lemma StepSeqnos(s: State, d: Descriptor, derive: Deriver)
    requires s.result.Running?
    requires SeqnosOrdered(s)
    ensures SeqnosOrdered(ProcessUnit(s, d, derive))
  {
    ProcessUnitStep(s, d, derive);
  }

  // ---------------------------------------------------------------------
  // The loop over all descriptors
  // ---------------------------------------------------------------------

  /**
   * What the loop does from `s` to `r` over descriptors `ds`: one report per
   * descriptor it reaches, in order, each following the pipeline; it reaches
   * all of them and the run is still going exactly when no unit was fatal;
   * otherwise the last report is the unit that stopped it and every earlier
   * one was not fatal.
   */
  ghost predicate LoopShape(s: State, r: State, ds: seq<Descriptor>)
  {
    var n := |s.reports|;
    n <= |r.reports| <= n + |ds| && r.reports[..n] == s.reports
    && (forall i :: n <= i < |r.reports| ==> r.reports[i].file == ds[i - n].file)
    && (forall i :: n <= i < |r.reports| ==> Conforms(r.reports[i]))
    && (r.result.Running? ==> |r.reports| == n + |ds|)
    && (r.result.Running? ==> forall i :: n <= i < |r.reports| ==> !IsFatal(r.reports[i].outcome))
    && (!r.result.Running? ==>
          |r.reports| > n && StoppedAt(r.result, r.reports[|r.reports| - 1])
          && forall i :: n <= i < |r.reports| - 1 ==> !IsFatal(r.reports[i].outcome))
  }

  /** A step that stops the run is a whole loop on its own. */
  lemma LoopShapeStop(s: State, s1: State, ds: seq<Descriptor>)
    requires ds != [] && UnitStep(s, s1, ds[0].file) && !s1.result.Running?
    ensures LoopShape(s, s1, ds)
  {
  }

  /** A step that keeps the run going, followed by the rest of the loop, is the loop. */
  lemma LoopShapeCons(s: State, s1: State, r: State, ds: seq<Descriptor>)
    requires ds != [] && UnitStep(s, s1, ds[0].file) && s1.result.Running?
    requires LoopShape(s1, r, ds[1..])
    ensures LoopShape(s, r, ds)
  {
    var n := |s.reports|;
    assert r.reports[..n] == r.reports[..n + 1][..n];
    forall i | n <= i < |r.reports|
      ensures r.reports[i].file == ds[i - n].file
    {
      if i > n {
        assert r.reports[i].file == ds[1..][i - (n + 1)].file;
      }
    }
  }

  /** The loop over the descriptors has the shape `LoopShape` describes. */
  lemma {:induction false} UnitsReports(s: State, ds: seq<Descriptor>, derive: Deriver)
    requires s.result.Running?
    decreases |ds|
    ensures LoopShape(s, Units(s, ds, derive), ds)
  {
    if ds == [] {
      assert s.reports[..|s.reports|] == s.reports;
    } else {
      var s1 := ProcessUnit(s, ds[0], derive);
      ProcessUnitStep(s, ds[0], derive);
      if s1.result.Running? {
        UnitsReports(s1, ds[1..], derive);
        LoopShapeCons(s, s1, Units(s1, ds[1..], derive), ds);
      } else {
        LoopShapeStop(s, s1, ds);
      }
    }
  }

  /** The transfer log is the concatenation of what the reports submitted. */
  lemma {:induction false} UnitsSent(s: State, ds: seq<Descriptor>, derive: Deriver)
    requires s.sent == Transfers(s.reports)
    decreases |ds|
    ensures Units(s, ds, derive).sent == Transfers(Units(s, ds, derive).reports)
  {
    if ds != [] && s.result.Running? {
      var s1 := ProcessUnit(s, ds[0], derive);
      ProcessUnitStep(s, ds[0], derive);
      assert s1.reports == s.reports + [s1.reports[|s.reports|]];
      TransfersAppend(s.reports, s1.reports[|s.reports|]);
      UnitsSent(s1, ds[1..], derive);
    }
  }

  /** The loop keeps the seqno order of the transfer log. */
  lemma {:induction false} UnitsSeqnos(s: State, ds: seq<Descriptor>, derive: Deriver)
    requires SeqnosOrdered(s)
    decreases |ds|
    ensures SeqnosOrdered(Units(s, ds, derive))
  {
    if ds != [] && s.result.Running? {
      StepSeqnos(s, ds[0], derive);
      UnitsSeqnos(ProcessUnit(s, ds[0], derive), ds[1..], derive);
    }
  }

  /** Calls with a single submission, at index 4, submit just that transfer. */
  lemma SubmittedAtFour(cs: seq<Call>)
    requires |cs| >= 5 && cs[4].Submit?
    requires forall j :: 0 <= j < |cs| && j != 4 ==> !cs[j].Submit?
    ensures Submitted(cs) == [cs[4].transfer]
  {
    assert cs == cs[..4] + [cs[4]] + cs[5..];
    SubmittedNone(cs[..4]);
    SubmittedNone(cs[5..]);
    SubmittedAppend(cs[..4], [cs[4]]);
    SubmittedAppend(cs[..4] + [cs[4]], cs[5..]);
    assert [cs[4]][1..] == [];
  }

  /** A report that follows the pipeline submits one transfer exactly when its unit got past the deployed check. */
  lemma ConformsSubmitsOnce(rep: Report)
    requires Conforms(rep)
    ensures |Submitted(rep.calls)| == if rep.outcome.LoadFailed? || rep.outcome.AddressError? || rep.outcome.Skipped? then 0 else 1
  {
    var cs := rep.calls;
    match rep.outcome
    case LoadFailed => SubmittedNone(cs);
    case AddressError => SubmittedNone(cs);
    case Skipped(_) => SubmittedNone(cs);
    case SubmitFailed(_) =>
      SubmittedAtFour(cs);
    case Deployed(a) =>
      forall j | 5 <= j < |cs| - 2
        ensures !cs[j].Submit?
      {
        assert cs[j] == cs[5..|cs| - 2][j - 5];
      }
      var tail := cs[|cs| - 2..];
      assert tail == [DeployedQuery(a, true), BalanceQuery(a)];
      assert cs[|cs| - 2] == tail[0] && cs[|cs| - 1] == tail[1];
      SubmittedAtFour(cs);
    case NotConfirmed(_) =>
      forall j | 5 <= j < |cs| - 1
        ensures !cs[j].Submit?
      {
        assert cs[j] == cs[5..|cs| - 1][j - 5];
      }
      SubmittedAtFour(cs);
  }

  /** Reports that each submit at most once account for at most one transfer each. */
  lemma {:induction false} TransfersBound(rs: seq<Report>)
    requires forall i :: 0 <= i < |rs| ==> Conforms(rs[i])
    decreases |rs|
    ensures |Transfers(rs)| <= |rs|
  {
    if rs != [] {
      ConformsSubmitsOnce(rs[0]);
      TransfersBound(rs[1..]);
    }
  }

  // ---------------------------------------------------------------------
  // Whole runs
  // ---------------------------------------------------------------------

  /**
   * The startup gate (lines 33-84): a missing or empty mnemonic, a failed key
   * derivation, a failed wallet creation, a failed balance fetch or a balance
   * under 0.2 TON ends the run with status 1 before any descriptor is
   * touched: no report, no transfer, the chain untouched. When the gate
   * passes, the run never ends for one of those reasons.
   */
  lemma StartupGate(env: Startup, chain: Chain, rejected: set<nat>, units: seq<Descriptor>, derive: Deriver)
    ensures var r := Run(Initial(chain, rejected), env, units, derive);
      (StartupFailure(env).Some? ==>
         r.result == Exit(1, StartupFailure(env).value) && r.reports == [] && r.sent == [] && r.chain == chain)
      && (StartupFailure(env).None? ==> !(r.result.Exit? && IsStartupReason(r.result.reason)))
  {
    if StartupFailure(env).None? {
      UnitsReports(Initial(chain, rejected), units, derive);
    }
  }

  /** Lines 74-80: with less than 0.2 TON in the wallet no transfer is ever sent and the run exits with status 1. */
  lemma LowBalanceSendsNothing(env: Startup, chain: Chain, rejected: set<nat>, units: seq<Descriptor>, derive: Deriver)
    requires env.balance.Some? && env.balance.value < MinWalletBalance
    ensures var r := Run(Initial(chain, rejected), env, units, derive);
      r.sent == [] && r.result.Exit? && r.result.code == 1
  {
    StartupGate(env, chain, rejected, units, derive);
  }

  /**
   * Lines 90-170, the shape of a run past the gate: one report per unit
   * reached, in glob order; every report follows the unit pipeline; the run
   * completes exactly when every unit was reached and none was fatal;
   * otherwise the unit that stopped it is the last one reached, every
   * earlier unit kept its effects, and no later unit was touched.
   */
  lemma RunInGlobOrder(env: Startup, chain: Chain, rejected: set<nat>, units: seq<Descriptor>, derive: Deriver)
    requires StartupFailure(env).None?
    ensures var r := Run(Initial(chain, rejected), env, units, derive);
      |r.reports| <= |units|
      && (forall i :: 0 <= i < |r.reports| ==> r.reports[i].file == units[i].file)
      && (forall i :: 0 <= i < |r.reports| ==> Conforms(r.reports[i]))
      && !r.result.Running?
      && (r.result.Completed? <==>
            |r.reports| == |units| && forall i :: 0 <= i < |r.reports| ==> !IsFatal(r.reports[i].outcome))
      && (!r.result.Completed? ==>
            r.reports != [] && StoppedAt(r.result, r.reports[|r.reports| - 1])
            && forall i :: 0 <= i < |r.reports| - 1 ==> !IsFatal(r.reports[i].outcome))
  {
    var s := Initial(chain, rejected);
    UnitsReports(s, units, derive);
    var u := Units(s, units, derive);
    assert forall i :: 0 <= i < |u.reports| ==> u.reports[0 + i] == u.reports[i];
    if !u.result.Running? {
      assert IsFatal(u.reports[|u.reports| - 1].outcome);
    }
  }

  /**
   * At most one transfer per unit (lines 137-152): the log is exactly the
   * transfers the reports submitted, in order; a unit that failed loading,
   * hit an address error or was skipped submitted none, every other unit
   * exactly one; so there are never more transfers than units.
   */
  lemma AtMostOneTransferPerUnit(env: Startup, chain: Chain, rejected: set<nat>, units: seq<Descriptor>, derive: Deriver)
    ensures var r := Run(Initial(chain, rejected), env, units, derive);
      r.sent == Transfers(r.reports)
      && (forall i :: 0 <= i < |r.reports| ==>
            |Submitted(r.reports[i].calls)|
            == if r.reports[i].outcome.LoadFailed? || r.reports[i].outcome.AddressError? || r.reports[i].outcome.Skipped? then 0 else 1)
      && |r.sent| <= |r.reports| <= |units|
  {
    var s := Initial(chain, rejected);
    var r := Run(s, env, units, derive);
    if StartupFailure(env).None? {
      UnitsSent(s, units, derive);
      RunInGlobOrder(env, chain, rejected, units, derive);
      forall i | 0 <= i < |r.reports|
        ensures |Submitted(r.reports[i].calls)|
          == if r.reports[i].outcome.LoadFailed? || r.reports[i].outcome.AddressError? || r.reports[i].outcome.Skipped? then 0 else 1
      {
        ConformsSubmitsOnce(r.reports[i]);
      }
      TransfersBound(r.reports);
    }
  }

  /**
   * Seqno order (lines 137 and 158): every transfer of a run consumes a seqno
   * no smaller than the one before it, because each is read from the chain
   * immediately before the transfer and the wallet seqno never goes back.
   */
  lemma SentSeqnosNonDecreasing(env: Startup, chain: Chain, rejected: set<nat>, units: seq<Descriptor>, derive: Deriver)
    ensures var r := Run(Initial(chain, rejected), env, units, derive);
      forall i, j :: 0 <= i < j < |r.sent| ==> r.sent[i].seqno <= r.sent[j].seqno
  {
    var s := Initial(chain, rejected);
    if StartupFailure(env).None? {
      UnitsSeqnos(s, units, derive);
    }
  }
}

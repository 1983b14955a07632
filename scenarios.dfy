/**
 * Whole runs of the deploy loop on particular inputs: a skipped unit followed
 * by a deployed one, a unit whose deployment is never seen, a descriptor
 * without `initData`, and two units that consume the same wallet seqno.
 */
module DeployScenarios {
  import opened Wrappers
  import opened Ton
  import opened Network
  import opened Deploy
  import opened DeployProperties

  /** A descriptor that loads: both functions are there, and so is the compiled code. */
  predicate Loads(d: Descriptor)
  {
    d.initData.Some? && d.initMessage.Some? && d.artifact.Compiled?
  }

  function AddressOf(d: Descriptor, derive: Deriver): Option<Address>
    requires Loads(d)
  {
    derive(Workchain, d.initData.value, d.artifact.code)
  }

  /**
   * A unit that loads, gets an address that is not yet deployed, and whose
   * submission is accepted while the network stands still: the poll runs
   * all ten attempts, the unit is reported not confirmed, and the run goes on
   * with the chain as it was.
   */
  lemma {:induction false} SilentUnit(s: State, d: Descriptor, derive: Deriver)
    requires s.result.Running? && Loads(d) && s.chain.ticks == []
    requires AddressOf(d, derive).Some? && AddressOf(d, derive).value !in s.chain.deployed
    requires |s.sent| !in s.rejected
    ensures var a := AddressOf(d, derive).value;
      var r := ProcessUnit(s, d, derive);
      r.result.Running? && r.chain == s.chain
      && r.sent == s.sent + [FundingTransfer(s.chain.seqno, a, d.initData.value, d.artifact.code, d.initMessage.value)]
      && |r.reports| == |s.reports| + 1
      && r.reports[|s.reports|].outcome == NotConfirmed(a)
      && |r.reports[|s.reports|].calls| == 5 + MaxPollAttempts + 1
  {
    PollFrozen(s.chain, s.chain.seqno, 0);
  }

  /**
   * One unit whose contract is still uninitialized after the confirmation
   * loop, however the wallet seqno moved meanwhile: it is reported not
   * confirmed, exactly one transfer was sent, and the run still completes.
   */
  lemma NeverConfirmed(env: Startup, chain: Chain, d: Descriptor, derive: Deriver)
    requires StartupFailure(env).None? && Loads(d)
    requires AddressOf(d, derive).Some? && AddressOf(d, derive).value !in chain.deployed
    requires AddressOf(d, derive).value !in Poll(chain, chain.seqno, 0).0.deployed
    ensures var r := Run(Initial(chain, {}), env, [d], derive);
      r.result == Completed && |r.sent| == 1
      && |r.reports| == 1 && r.reports[0].outcome == NotConfirmed(AddressOf(d, derive).value)
  {
    var s := Initial(chain, {});
    ConfirmationDecides(s, d, derive);
    OneFundingTransfer(s, d, derive);
    var s1 := ProcessUnit(s, d, derive);
    assert [d][1..] == [];
    assert Units(s, [d], derive) == Units(s1, [], derive) == s1;
  }

  /**
   * The seqno is read afresh for every unit, but nothing waits for it to move
   * past a transfer that was never confirmed: two units deployed while the
   * network stands still both consume the same seqno.
   */
  lemma SeqnoReusedAfterSilentPoll(env: Startup, chain: Chain, d1: Descriptor, d2: Descriptor, derive: Deriver)
    requires StartupFailure(env).None? && Loads(d1) && Loads(d2) && chain.ticks == []
    requires AddressOf(d1, derive).Some? && AddressOf(d1, derive).value !in chain.deployed
    requires AddressOf(d2, derive).Some? && AddressOf(d2, derive).value !in chain.deployed
    ensures var r := Run(Initial(chain, {}), env, [d1, d2], derive);
      r.result == Completed && |r.sent| == 2
      && r.sent[0].seqno == r.sent[1].seqno == chain.seqno
  {
    var s0 := Initial(chain, {});
    SilentUnit(s0, d1, derive);
    var s1 := ProcessUnit(s0, d1, derive);
    SilentUnit(s1, d2, derive);
    var s2 := ProcessUnit(s1, d2, derive);
    assert StartupFailure(env).None?;
    assert [d1, d2][1..] == [d2];
    assert [d2][1..] == [];
    assert Units(s0, [d1, d2], derive) == Units(s1, [d2], derive) == Units(s2, [], derive) == s2;
  }

  /**
   * A descriptor without an `initData` function stops the run with exit
   * status 1 naming it, before any chain call for it and before any later
   * descriptor is looked at.
   */
  lemma MissingInitDataStops(env: Startup, chain: Chain, d: Descriptor, later: seq<Descriptor>, derive: Deriver)
    requires StartupFailure(env).None? && d.initData.None?
    ensures var r := Run(Initial(chain, {}), env, [d] + later, derive);
      r.result == Exit(1, NoInitData(d.file)) && r.sent == [] && r.chain == chain
      && r.reports == [Report(d.file, LoadFailed, [])]
  {
    var s := Initial(chain, {});
    assert ([d] + later)[0] == d;
    assert StartupFailure(env).None?;
    var s1 := ProcessUnit(s, d, derive);
    assert Units(s, [d] + later, derive) == Units(s1, ([d] + later)[1..], derive) == s1;
  }

  /**
   * Two units, the first already deployed and the second confirmed on the
   * third poll attempt: the first is skipped, the second deployed, and
   * exactly one transfer was sent.
   */
  lemma SkipThenDeploy()
    ensures var derive := (w: int, data: Cell, code: Cell) => Some(Address(data.id));
      var first := Descriptor("build/first.deploy.ts", Some(Cell(1)), Some(None), Compiled(Cell(10)));
      var second := Descriptor("build/second.deploy.ts", Some(Cell(2)), Some(Some(Cell(3))), Compiled(Cell(20)));
      var chain := Chain(7, {Address(1)}, [Tick(0, {}), Tick(0, {}), Tick(1, {Address(2)})]);
      var env := Startup(Some("abandon ability"), true, true, Some(MinWalletBalance));
      var r := Run(Initial(chain, {}), env, [first, second], derive);
      r.result == Completed
      && r.sent == [FundingTransfer(7, Address(2), Cell(2), Cell(20), Some(Cell(3)))]
      && |r.reports| == 2
      && r.reports[0].outcome == Skipped(Address(1))
      && r.reports[1].outcome == Deployed(Address(2))
  {
    var derive := (w: int, data: Cell, code: Cell) => Some(Address(data.id));
    var first := Descriptor("build/first.deploy.ts", Some(Cell(1)), Some(None), Compiled(Cell(10)));
    var second := Descriptor("build/second.deploy.ts", Some(Cell(2)), Some(Some(Cell(3))), Compiled(Cell(20)));
    var chain := Chain(7, {Address(1)}, [Tick(0, {}), Tick(0, {}), Tick(1, {Address(2)})]);
    var s0 := Initial(chain, {});
    var s1 := ProcessUnit(s0, first, derive);
    assert s1.chain == chain && s1.sent == [] && s1.result.Running?;
    var c1 := Advance(chain);
    var c2 := Advance(c1);
    var c3 := Advance(c2);
    assert c3.seqno == 8 && Address(2) in c3.deployed;
    assert Poll(chain, 7, 0).0 == c3;
    var s2 := ProcessUnit(s1, second, derive);
    assert s2.reports[1].outcome == Deployed(Address(2));
    assert [first, second][1..] == [second];
    assert [second][1..] == [];
  }
}

/**
 * `main` of `build/_deploy.ts`, step by step: a deployer that holds the chain
 * state it observes (wallet seqno, deployed addresses, the ticks still to come),
 * the oracles it cannot see into (address derivation, which submissions
 * throw), and what the run has produced so far. Each method is proved to do
 * exactly what the matching function of module Deploy says.
 */
module Deployer {
  import opened Wrappers
  import opened Ton
  import opened Network
  import opened Deploy

  class Deployer {
    // the chain, as the TON client reports it
    var seqno: nat
    var deployed: set<Address>
    var ticks: seq<Tick>
    // the oracles
    const rejected: set<nat>
    const derive: Deriver
    // what the run has done
    var sent: seq<Transfer>
    var reports: seq<Report>
    var result: RunResult

    function ChainState(): Chain
      reads this
    {
      Chain(seqno, deployed, ticks)
    }

    function Snapshot(): State
      reads this
    {
      State(ChainState(), rejected, sent, reports, result)
    }

    constructor (chain: Chain, rejected: set<nat>, derive: Deriver)
      ensures Snapshot() == Initial(chain, rejected) && this.derive == derive
    {
      seqno, deployed, ticks := chain.seqno, chain.deployed, chain.ticks;
      this.rejected, this.derive := rejected, derive;
      sent, reports, result := [], [], Running;
    }

    /** `walletContract.getSeqNo()`: the wallet seqno the chain holds now. */
    method GetSeqNo() returns (n: nat)
      ensures n == ChainState().seqno
    {
      n := seqno;
    }

    /** `client.isContractDeployed(a)`: whether `a` holds an initialized contract now. */
    method IsContractDeployed(a: Address) returns (b: bool)
      ensures b <==> a in ChainState().deployed
    {
      b := a in deployed;
    }

    /** `sleep(2000)`: the network moves on by one tick; nothing else changes. */
    method Sleep()
      modifies this`seqno, this`deployed, this`ticks
      ensures ChainState() == Advance(old(ChainState()))
    {
      var c := Advance(ChainState());
      seqno, deployed, ticks := c.seqno, c.deployed, c.ticks;
    }

    /**
     * `client.sendExternalMessage(walletContract, t)`: the transfer is handed
     * over; `accepted` is false when the call throws.
     */
    method SendExternalMessage(t: Transfer) returns (accepted: bool)
      modifies this`sent
      ensures sent == old(sent) + [t]
      ensures accepted <==> |old(sent)| !in rejected
    {
      accepted := |sent| !in rejected;
      sent := sent + [t];
    }

    /** The confirmation loop after a transfer that consumed `before`. */
    method ConfirmPoll(before: nat) returns (polls: seq<Call>)
      modifies this`seqno, this`deployed, this`ticks
      ensures (ChainState(), polls) == Poll(old(ChainState()), before, 0)
    {
      polls := [];
      var attempt := 0;
      ghost var whole := Poll(old(ChainState()), before, 0);
      assert polls + whole.1 == whole.1;
      while attempt < MaxPollAttempts
        invariant attempt <= MaxPollAttempts
        invariant whole.0 == Poll(ChainState(), before, attempt).0
        invariant whole.1 == polls + Poll(ChainState(), before, attempt).1
      {
        ghost var prev := ChainState();
        Sleep();
        var after := GetSeqNo();
        PollStep(prev, before, attempt);
        polls := polls + [PollRead(after)];
        if after > before {
          break;
        }
        attempt := attempt + 1;
      }
      assert whole.0 == ChainState() && whole.1 == polls;
    }

    /** The body of the `for` loop, for descriptor `d`. */
    method DeployUnit(d: Descriptor)
      requires result.Running?
      modifies this
      ensures Snapshot() == ProcessUnit(old(Snapshot()), d, derive)
    {
      if d.initData.None? {
        reports := reports + [Report(d.file, LoadFailed, [])];
        result := Exit(1, NoInitData(d.file));
        return;
      }
      var data := d.initData.value;
      var calls := [InitDataCall];
      if d.initMessage.None? {
        reports := reports + [Report(d.file, LoadFailed, calls)];
        result := Exit(1, NoInitMessage(d.file));
        return;
      }
      var body := d.initMessage.value;
      calls := calls + [InitMessageCall];
      assert calls == Loaded;
      if d.artifact.Missing? {
        reports := reports + [Report(d.file, LoadFailed, calls)];
        result := Exit(1, NoArtifact(d.file));
        return;
      } else if d.artifact.Unparsable? {
        reports := reports + [Report(d.file, LoadFailed, calls)];
        result := Rejected(d.file);
        return;
      }
      var code := d.artifact.code;

      var derived := derive(Workchain, data, code);
      if derived.None? {
        reports := reports + [Report(d.file, AddressError, calls)];
        return;
      }
      var addr := derived.value;

      var already := IsContractDeployed(addr);
      calls := calls + [DeployedQuery(addr, already)];
      if already {
        reports := reports + [Report(d.file, Skipped(addr), calls)];
        return;
      }

      var n := GetSeqNo();
      var t := FundingTransfer(n, addr, data, code, body);
      calls := calls + [SeqnoRead(n), Submit(t)];
      assert calls == Loaded + [DeployedQuery(addr, false), SeqnoRead(n), Submit(t)];
      var accepted := SendExternalMessage(t);
      if !accepted {
        reports := reports + [Report(d.file, SubmitFailed(addr), calls)];
        result := Rejected(d.file);
        return;
      }

      var polls := ConfirmPoll(n);
      calls := calls + polls;
      ghost var polled := calls;
      var landed := IsContractDeployed(addr);
      calls := calls + [DeployedQuery(addr, landed)];
      if landed {
        calls := calls + [BalanceQuery(addr)];
        assert calls == polled + [DeployedQuery(addr, true), BalanceQuery(addr)];
        reports := reports + [Report(d.file, Deployed(addr), calls)];
      } else {
        reports := reports + [Report(d.file, NotConfirmed(addr), calls)];
      }
    }

    /** `main`: the startup checks, then every descriptor in glob order until the run stops. */
    method DeployAll(env: Startup, units: seq<Descriptor>)
      requires result.Running?
      modifies this
      ensures Snapshot() == Run(old(Snapshot()), env, units, derive)
    {
      if env.mnemonic.None? || env.mnemonic.value == "" {
        result := Exit(1, NoMnemonic);
        return;
      }
      if !env.keyDerived {
        result := Exit(1, KeyDerivationFailed);
        return;
      }
      if !env.walletCreated {
        result := Exit(1, WalletCreationFailed);
        return;
      }
      if env.balance.None? {
        result := Exit(1, BalanceUnavailable);
        return;
      }
      if env.balance.value < MinWalletBalance {
        result := Exit(1, BalanceTooLow);
        return;
      }

      var i := 0;
      while i < |units| && result.Running?
        invariant i <= |units|
        invariant Units(old(Snapshot()), units, derive) == Units(Snapshot(), units[i..], derive)
      {
        assert units[i..][0] == units[i] && units[i..][1..] == units[i + 1..];
        DeployUnit(units[i]);
        i := i + 1;
      }
      if result.Running? {
        result := Completed;
      }
    }
  }
}

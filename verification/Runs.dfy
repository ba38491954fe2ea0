/** The two invariants hold in every state of every run. */
module Runs {
  import opened Types
  import opened Machine
  import opened Frames
  import opened TableSafety
  import opened ClientInvariant
  import opened ClientSideProof
  import opened HubProof
  import opened DestProof

  lemma ClientInit(cfg: Config, s: State, k: nat)
    requires ValidConfig(cfg) && Init(cfg, s)
    ensures ClientInv(cfg, s, k)
  {
    hide UdpRules.Target;
  }

  lemma KeepsClient(cfg: Config, s: State, st: Step, s': State, k: nat)
    requires ValidConfig(cfg) && TableInv(cfg, s) && ClientInv(cfg, s, k) && Do(cfg, s, st) == Some(s')
    requires Distinct(s', k)
    ensures ClientInv(cfg, s', k)
  {
    hide ClientInv, TableOk, ValidConfig, HubDo, ClientDo, DestDo, Wired;
    AllocsGrow(cfg, s, st, s');
    match st
    case AtHub(h) => HubKeepsClient(cfg, s, h, s', k);
    case AtClient(c) => ClientSideKeeps(cfg, s, c, s', k);
    case AtDest(d) => DestKeepsClient(cfg, s, d, s', k);
    case Wait(_) => PcOnly(cfg, s, s', k);
    case Shutdown => PcOnly(cfg, s, s', k);
  }

  /** The id counter never runs backwards. */
  lemma AllocsGrow(cfg: Config, s: State, st: Step, s': State)
    requires Do(cfg, s, st) == Some(s')
    ensures s.t.allocs <= s'.t.allocs
  {
    hide HubDo, ClientDo, DestDo;
    match st
    case AtHub(h) => HubFrame(cfg, s, h, s');
    case AtClient(c) => ClientFrame(cfg, s, c, s');
    case AtDest(d) => DestFrame(cfg, s, d, s');
    case _ =>
  }

  // ---------------------------------------------------------------- runs

  lemma {:induction false} TableHolds(cfg: Config, r: Run, i: nat)
    requires ValidConfig(cfg) && IsRun(cfg, r) && i < |r.states|
    ensures TableInv(cfg, r.states[i])
  {
    hide TableInv, Do, Init;
    if i == 0 {
      InitTable(cfg, r.states[0]);
    } else {
      TableHolds(cfg, r, i - 1);
      KeepsTable(cfg, r.states[i - 1], r.steps[i - 1], r.states[i]);
    }
  }

  lemma {:induction false} ClientHolds(cfg: Config, r: Run, i: nat, k: nat)
    requires ValidConfig(cfg) && IsRun(cfg, r) && i < |r.states| && Distinct(r.states[i], k)
    ensures ClientInv(cfg, r.states[i], k)
  {
    hide TableInv, ClientInv, Do, Init;
    if i == 0 {
      ClientInit(cfg, r.states[0], k);
    } else {
      AllocsGrow(cfg, r.states[i - 1], r.steps[i - 1], r.states[i]);
      TableHolds(cfg, r, i - 1);
      ClientHolds(cfg, r, i - 1, k);
      KeepsClient(cfg, r.states[i - 1], r.steps[i - 1], r.states[i], k);
    }
  }

  lemma {:induction false} AllocsBelow(cfg: Config, r: Run, i: nat, j: nat)
    requires IsRun(cfg, r) && i <= j < |r.states|
    ensures r.states[i].t.allocs <= r.states[j].t.allocs
  {
    hide Do;
    if i < j {
      AllocsBelow(cfg, r, i, j - 1);
      AllocsGrow(cfg, r.states[j - 1], r.steps[j - 1], r.states[j]);
    }
  }
}

/** The gate registry and gate results (gates.py). */
module Gates {
  import opened Basics

  /** The registry's decisive columns; the prose columns are left out. */
  datatype Gate = Gate(name: string, ownerTeam: string, waivable: bool)

  const GATES: seq<Gate> := [
    Gate("SPEC_COMPLETE", "docs", true),
    Gate("POLICY_CLEAN", "policy", true),
    Gate("RUNTIME_SOUND", "runtime", true),
    Gate("VERIFY_PASS", "verification", true),
    Gate("FAIL_CLOSED_PASS", "verification", false),
    Gate("PLATFORM_READY", "platform", true),
    Gate("RELEASE_SIGNED", "release", true)
  ]

  function Find(gates: seq<Gate>, name: string): Option<Gate> {
    if gates == [] then None
    else if gates[0].name == name then Some(gates[0])
    else Find(gates[1..], name)
  }

  /** `gate(name)`. */
  function Lookup(name: string): Option<Gate> {
    Find(GATES, name)
  }

  predicate Known(name: string) {
    Lookup(name).Some?
  }

  lemma {:induction false} FindIff(gates: seq<Gate>, name: string)
    ensures Find(gates, name).Some? <==> exists i :: 0 <= i < |gates| && gates[i].name == name
    ensures Find(gates, name).Some? ==> Find(gates, name).value in gates && Find(gates, name).value.name == name
  {
    if gates != [] {
      FindIff(gates[1..], name);
      assert forall i :: 1 <= i < |gates| ==> gates[i] == gates[1..][i - 1];
    }
  }

  datatype GateResult = GateResult(gate: string, passed: bool, evidence: seq<string>, checkedBy: string, checkedAt: int)
  {
    predicate Valid() {
      Known(gate) && evidence != [] && checkedBy == Lookup(gate).value.ownerTeam
    }
  }
}

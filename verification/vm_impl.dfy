/** The per-CPU address-space cells and the operations that write them (kernel/src/memory/vm.rs). */
module VmImpl {
  import opened Base
  import opened SchedState
  import opened VmRoots

  datatype VmError = WrongCpu | ActiveAddressSpace

  class AddressSpaces {
    const installed: array<Option<nat>>
    const access: array<bool>

    ghost predicate Valid() {
      installed.Length == access.Length
    }

    ghost function Model(): seq<CpuVm>
      reads installed, access
      requires Valid()
    {
      seq(installed.Length,
          k requires 0 <= k < installed.Length reads installed, access => CpuVm(installed[k], access[k]))
    }

    constructor (cpus: nat)
      ensures Valid() && fresh(installed) && fresh(access) && Model() == seq(cpus, _ => CpuVm(None, false))
    {
      installed := new Option<nat>[cpus](_ => None);
      access := new bool[cpus](_ => false);
    }

    method ForUsercopy(c: nat) returns (root: Option<nat>)
      requires Valid() && c < installed.Length
      ensures root == VmRoots.ForUsercopy(Model()[c])
    {
      if !access[c] { return None; }
      root := installed[c];
    }

    method RetainForIdle(c: nat)
      requires Valid() && c < installed.Length
      modifies access
      ensures Model() == old(Model())[c := Retain(old(Model())[c])]
    {
      access[c] := false;
    }

    method ClearUser(c: nat)
      requires Valid() && c < installed.Length
      modifies installed, access
      ensures Model() == old(Model())[c := Clear(old(Model())[c])]
    {
      access[c] := false;
      if installed[c].None? { return; }
      installed[c] := None;
    }

    /** Searches the other CPUs before it installs a root. */
    method ActivateUser(c: nat, user: User) returns (error: Option<VmError>)
      requires Valid() && c < installed.Length
      modifies installed, access
      ensures error.None? <==> Activate(old(Model()), c, user).Some?
      ensures Model() == if error.None? then Activate(old(Model()), c, user).value else old(Model())
      ensures error == Some(WrongCpu) <==> user.owner != c
    {
      if user.owner != c { return Some(WrongCpu); }
      if installed[c] == Some(user.root) {
        access[c] := true;
        return None;
      }
      var elsewhere := Records(user.root, Some(c));
      if elsewhere { return Some(ActiveAddressSpace); }
      access[c] := false;
      installed[c] := Some(user.root);
      access[c] := true;
      error := None;
    }

    /** Does a CPU, other than the one to skip, record the root? */
    method Records(root: nat, skip: Option<nat>) returns (found: bool)
      requires Valid()
      ensures found <==> exists k :: 0 <= k < |Model()| && Some(k) != skip && Model()[k].installed == Some(root)
    {
      var k := 0;
      while k < installed.Length
        invariant k <= installed.Length
        invariant forall j :: 0 <= j < k && Some(j) != skip ==> Model()[j].installed != Some(root)
      {
        if Some(k) != skip && installed[k] == Some(root) {
          assert Model()[k].installed == Some(root);
          return true;
        }
        k := k + 1;
      }
      found := false;
    }

    method Destroy(root: nat) returns (error: Option<VmError>)
      requires Valid()
      ensures error.None? <==> MayDestroy(Model(), root)
    {
      var active := Records(root, None);
      if active { return Some(ActiveAddressSpace); }
      error := None;
    }
  }
}

/**
  The part of a loaded program that the Dread analyzer consults: its executable
  format label, its MD5 digest, the functions it contains (by entry address) and
  the references that originate at each address. The host framework computes
  all of these; here they are plain values.
 */
module ProgramModel {

  /** Stands for a Java reference that may be null. */
  datatype Option<+T> = None | Some(value: T)

  /** A virtual address in the program's address space. */
  type Address = nat

  /** The reference types the analyzer tells apart: a parameter binding
      (RefType.PARAM), a call-flow reference (a FlowType whose isCall() holds),
      and every other reference type. */
  datatype RefKind = Param | Call | Other

  /** A directed reference from one code location to another. */
  datatype Reference = Reference(from: Address, to: Address, kind: RefKind)

  /** A function of the program. `body` lists the addresses of its body in
      the order the host framework visits them; `ReferencesInAscending` states
      what follows when that order is ascending. */
  datatype Function = Function(name: string, entry: Address, body: seq<Address>)

  /** The loaded program, as far as the analyzer reads it. */
  datatype Program = Program(
    executableFormat: string,
    executableMD5: string,
    functions: map<Address, Function>,
    referencesFrom: map<Address, seq<Reference>>)

  /** The function whose entry point is `addr`, if there is one. */
  function FunctionAt(program: Program, addr: Address): (f: Option<Function>)
    ensures f.None? <==> addr !in program.functions
    ensures f.Some? ==> addr in program.functions && f.value == program.functions[addr]
  {
    if addr in program.functions then Some(program.functions[addr]) else None
  }

  /** The references whose origin is `addr`; none when nothing originates there. */
  function ReferencesFrom(program: Program, addr: Address): seq<Reference>
  {
    if addr in program.referencesFrom then program.referencesFrom[addr] else []
  }

  /** Every reference the program lists under an address really originates there. */
  ghost predicate ReferencesOriginate(program: Program)
  {
    forall addr, i :: addr in program.referencesFrom && 0 <= i < |program.referencesFrom[addr]| ==>
      program.referencesFrom[addr][i].from == addr
  }

  ghost predicate StrictlyAscending(addrs: seq<Address>)
  {
    forall i, j :: 0 <= i < j < |addrs| ==> addrs[i] < addrs[j]
  }

  ghost predicate AscendingOrigins(refs: seq<Reference>)
  {
    forall i, j :: 0 <= i < j < |refs| ==> refs[i].from <= refs[j].from
  }

  /** The references originating in `addrs`, address by address, in the order
      the addresses are given. */
  function ReferencesIn(program: Program, addrs: seq<Address>): (refs: seq<Reference>)
    ensures forall r :: r in refs <==> exists a :: a in addrs && r in ReferencesFrom(program, a)
  {
    if addrs == [] then []
    else
      var init, last := addrs[..|addrs| - 1], addrs[|addrs| - 1];
      assert forall a :: a in addrs <==> a in init || a == last;
      ReferencesIn(program, init) + ReferencesFrom(program, last)
  }

  /** Visiting one more address appends the references originating there. */
  lemma ReferencesInStep(program: Program, addrs: seq<Address>, i: nat)
    requires i < |addrs|
    ensures ReferencesIn(program, addrs[..i + 1]) ==
      ReferencesIn(program, addrs[..i]) + ReferencesFrom(program, addrs[i])
  {
    assert addrs[..i + 1][..i] == addrs[..i];
  }

  /** Ascending references, followed by references that all originate at an
      address above every earlier origin, are still ascending. */
  lemma AscendingConcat(front: seq<Reference>, back: seq<Reference>, last: Address)
    requires AscendingOrigins(front)
    requires forall i :: 0 <= i < |front| ==> front[i].from < last
    requires forall j :: 0 <= j < |back| ==> back[j].from == last
    ensures AscendingOrigins(front + back)
  {
    var refs := front + back;
    forall i, j | 0 <= i < j < |refs|
      ensures refs[i].from <= refs[j].from
    {
      if j < |front| {
        assert refs[i] == front[i] && refs[j] == front[j];
      } else if i < |front| {
        assert refs[i] == front[i] && refs[j] == back[j - |front|];
      } else {
        assert refs[i] == back[i - |front|] && refs[j] == back[j - |front|];
      }
    }
  }

  /** When every reference originates where the program lists it and the body
      is visited in ascending address order, the collected references come out
      in ascending order of origin. */
  lemma {:induction false} ReferencesInAscending(program: Program, addrs: seq<Address>)
    requires ReferencesOriginate(program)
    requires StrictlyAscending(addrs)
    ensures AscendingOrigins(ReferencesIn(program, addrs))
    ensures forall r :: r in ReferencesIn(program, addrs) ==> r.from in addrs
  {
    if addrs != [] {
      var init, last := addrs[..|addrs| - 1], addrs[|addrs| - 1];
      ReferencesInAscending(program, init);
      var front, back := ReferencesIn(program, init), ReferencesFrom(program, last);
      var refs := ReferencesIn(program, addrs);
      assert refs == front + back;
      forall j | 0 <= j < |back|
        ensures back[j].from == last
      {
        assert last in program.referencesFrom;
      }
      forall i | 0 <= i < |front|
        ensures front[i].from < last
      {
        assert front[i] in front;
        var k :| 0 <= k < |init| && init[k] == front[i].from;
        assert init[k] == addrs[k];
      }
      AscendingConcat(front, back, last);
      forall r | r in refs
        ensures r.from in addrs
      {
        if r in front {
        } else {
          var j :| 0 <= j < |back| && back[j] == r;
        }
      }
    }
  }
}

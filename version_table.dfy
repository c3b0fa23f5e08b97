/**
  Version identification: the table of known game builds and the first-match
  search over it that decides whether a loaded program can be analyzed and
  which build it is.
 */
module VersionTable {
  import opened ProgramModel

  /** The only executable format the analyzer accepts. */
  const SwitchFormat: string := "Nintendo Switch Binary"

  /** A known build of the game. A `Fingerprinted` entry is recognised by the
      MD5 of its compressed or its decompressed executable; an
      `AlwaysCompatible` entry matches every program (the override used for a
      build whose digests are not yet known). */
  datatype GameHash =
    | Fingerprinted(version: string, compressed: string, decompressed: string)
    | AlwaysCompatible(version: string, compressed: string, decompressed: string)

  /** The known builds, in declaration order. */
  const GameHashes: seq<GameHash> := [
    Fingerprinted("1.0.0", "f5d9aa2af3abef3070791057060ee93c", "0bfaa4258b49b560bb5bdf4d353ec0f6"),
    AlwaysCompatible("1.0.1", "", "")
  ]

  /** Whether `program` is the build `g` describes. */
  predicate ProgramIsCompatible(g: GameHash, program: Program)
  {
    match g
    case Fingerprinted(_, compressed, decompressed) =>
      program.executableMD5 == compressed || program.executableMD5 == decompressed
    case AlwaysCompatible(_, _, _) => true
  }

  /** What each entry of the table accepts: the 1.0.0 entry exactly the
      programs with one of its two digests, the 1.0.1 override every program;
      and a fingerprinted entry's answer depends on the digest alone. */
  lemma EntriesAccept(program: Program, other: Program)
    ensures ProgramIsCompatible(GameHashes[0], program) <==>
      program.executableMD5 in {"f5d9aa2af3abef3070791057060ee93c", "0bfaa4258b49b560bb5bdf4d353ec0f6"}
    ensures ProgramIsCompatible(GameHashes[1], program)
    ensures forall g: GameHash :: g.Fingerprinted? && program.executableMD5 == other.executableMD5 ==>
      (ProgramIsCompatible(g, program) <==> ProgramIsCompatible(g, other))
  {
  }

  /** The index of the first entry of `table` compatible with `program`. */
  function FirstCompatible(table: seq<GameHash>, program: Program): (k: Option<nat>)
    ensures k.Some? ==> k.value < |table| && ProgramIsCompatible(table[k.value], program)
    ensures k.Some? ==> forall j :: 0 <= j < k.value ==> !ProgramIsCompatible(table[j], program)
    ensures k.None? <==> forall j :: 0 <= j < |table| ==> !ProgramIsCompatible(table[j], program)
  {
    if table == [] then None
    else if ProgramIsCompatible(table[0], program) then Some(0)
    else
      match FirstCompatible(table[1..], program)
      case None => None
      case Some(j) => Some(j + 1)
  }

  /** The build tag of `program`, or None when it cannot be analyzed. */
  function Identify(program: Program): (tag: Option<string>)
    ensures program.executableFormat != SwitchFormat ==> tag == None
    ensures tag.Some? <==>
      program.executableFormat == SwitchFormat &&
      exists i :: 0 <= i < |GameHashes| && ProgramIsCompatible(GameHashes[i], program)
    ensures tag.Some? ==>
      exists i :: 0 <= i < |GameHashes| && tag.value == GameHashes[i].version &&
        ProgramIsCompatible(GameHashes[i], program) &&
        forall j :: 0 <= j < i ==> !ProgramIsCompatible(GameHashes[j], program)
  {
    if program.executableFormat != SwitchFormat then None
    else
      match FirstCompatible(GameHashes, program)
      case None => None
      case Some(k) => Some(GameHashes[k].version)
  }

  /** An entry declared before another compatible entry always takes precedence:
      a later entry is chosen only when no earlier one matches. */
  lemma {:induction false} FirstDeclaredWins(table: seq<GameHash>, program: Program, i: nat, j: nat)
    requires i < j < |table|
    requires ProgramIsCompatible(table[i], program)
    ensures FirstCompatible(table, program) != Some(j)
    ensures FirstCompatible(table, program).Some? && FirstCompatible(table, program).value <= i
  {
  }

  /** A Switch binary whose MD5 is either digest of build 1.0.0 is build 1.0.0. */
  lemma Version100Identified(program: Program)
    requires program.executableFormat == SwitchFormat
    requires program.executableMD5 == "f5d9aa2af3abef3070791057060ee93c" ||
             program.executableMD5 == "0bfaa4258b49b560bb5bdf4d353ec0f6"
    ensures Identify(program) == Some("1.0.0")
  {
    assert ProgramIsCompatible(GameHashes[0], program);
  }

  /** Because the 1.0.1 entry always matches, every other Switch binary is
      taken for build 1.0.1; so a Switch binary (whose digest the model always
      has) is never rejected. */
  lemma OtherSwitchBinariesAre101(program: Program)
    requires program.executableFormat == SwitchFormat
    requires program.executableMD5 != "f5d9aa2af3abef3070791057060ee93c"
    requires program.executableMD5 != "0bfaa4258b49b560bb5bdf4d353ec0f6"
    ensures Identify(program) == Some("1.0.1")
  {
    assert !ProgramIsCompatible(GameHashes[0], program);
    assert ProgramIsCompatible(GameHashes[1], program);
  }

  /** Every tag that identification yields is one the routine table knows. */
  lemma IdentifiedTagsAreKnown(program: Program)
    ensures Identify(program).Some? ==> Identify(program).value in {"1.0.0", "1.0.1"}
  {
    if Identify(program).Some? {
      var k := FirstCompatible(GameHashes, program).value;
      assert k < 2;
    }
  }
}

/**
  The Dread analyzer base class: it identifies the game build (and remembers
  it in `version`), resolves the well-known routines of that build, and
  reconstructs the call sites of a function together with their parameter
  references.
 */
module Analyzer {
  import opened ProgramModel
  import opened VersionTable
  import opened CallSiteSpec

  /** Where a symbol name comes from, as the host framework records it. */
  datatype SourceType = UserDefined | Analysis

  const GuardAcquire: string := "__cxa_guard_acquire"
  const GuardRelease: string := "__cxa_guard_release"
  const ReadConfigValue: string := "ReadConfigValue"
  const Unk1: string := "unk1"
  const Unk2: string := "unk2"

  class DreadAnalyzer {
    /** The build tag found by the last successful CanAnalyze; None until then. */
    var version: Option<string>
    var forceRename: bool
    var forceReanalysis: bool

    constructor ()
      ensures version == None && !forceRename && !forceReanalysis
    {
      version := None;
      forceRename := false;
      forceReanalysis := false;
    }

    /** Accepts only Switch binaries, takes the first known build in declaration
        order that the program is compatible with, and records its tag. When it
        rejects, `version` keeps its previous value. */
    method CanAnalyze(program: Program) returns (ok: bool)
      modifies this`version
      ensures ok <==> Identify(program).Some?
      ensures ok ==> version == Identify(program)
      ensures !ok ==> version == old(version)
      ensures program.executableFormat != SwitchFormat ==> !ok
    {
      var md5s := GameHashes;
      if program.executableFormat != SwitchFormat {
        return false;
      }
      for i := 0 to |md5s|
        invariant forall j :: 0 <= j < i ==> !ProgramIsCompatible(md5s[j], program)
      {
        if ProgramIsCompatible(md5s[i], program) {
          version := Some(md5s[i].version);
          return true;
        }
      }
      return false;
    }

    /** Names given by this analyzer count as the user's own when renaming is forced. */
    function SourceType(): (s: SourceType)
      reads this
      ensures s == UserDefined <==> forceRename
      ensures s == Analysis <==> !forceRename
    {
      if forceRename then UserDefined else Analysis
    }

    /** The well-known routines of the recorded build, each mapped to the
        function found at its fixed address (None when there is none). The
        guard routines have build-specific addresses and are present only for
        the builds that list them; the other three are the same for every build. */
    method GetRequiredCallees(program: Program) returns (required: map<string, Option<Function>>)
      requires version.Some?
      ensures version.value in {"1.0.0", "1.0.1"} ==>
        required.Keys == {GuardAcquire, GuardRelease, ReadConfigValue, Unk1, Unk2}
      ensures version.value !in {"1.0.0", "1.0.1"} ==>
        required.Keys == {ReadConfigValue, Unk1, Unk2}
      ensures ReadConfigValue in required && required[ReadConfigValue] == FunctionAt(program, 0x71000003d4)
      ensures Unk1 in required && required[Unk1] == FunctionAt(program, 0x7100080124)
      ensures Unk2 in required && required[Unk2] == FunctionAt(program, 0x7100000250)
      ensures version.value == "1.0.0" ==>
        GuardAcquire in required && required[GuardAcquire] == FunctionAt(program, 0x71011f3000) &&
        GuardRelease in required && required[GuardRelease] == FunctionAt(program, 0x71011f3010)
      ensures version.value == "1.0.1" ==>
        GuardAcquire in required && required[GuardAcquire] == FunctionAt(program, 0x71011f37e0) &&
        GuardRelease in required && required[GuardRelease] == FunctionAt(program, 0x71011f37f0)
    {
      required := map[];
      if version.value == "1.0.0" {
        required := required[GuardAcquire := FunctionAt(program, 0x71011f3000)];
        required := required[GuardRelease := FunctionAt(program, 0x71011f3010)];
      } else if version.value == "1.0.1" {
        required := required[GuardAcquire := FunctionAt(program, 0x71011f37e0)];
        required := required[GuardRelease := FunctionAt(program, 0x71011f37f0)];
      }
      required := required[ReadConfigValue := FunctionAt(program, 0x71000003d4)];
      required := required[Unk1 := FunctionAt(program, 0x7100080124)];
      required := required[Unk2 := FunctionAt(program, 0x7100000250)];
    }

    /** The call sites of `func`: its outgoing references are gathered address
        by address, then scanned once; parameter references wait in a pending
        list, each call reference emits a record with a copy of that list and
        empties it, and every other reference is skipped. */
    method CallsWithParams(program: Program, func: Function) returns (funcsWithParams: seq<CallSite>)
      ensures funcsWithParams == CallSites(program, ReferencesIn(program, func.body))
    {
      var allReferences: seq<Reference> := [];
      for i := 0 to |func.body|
        invariant allReferences == ReferencesIn(program, func.body[..i])
      {
        ReferencesInStep(program, func.body, i);
        allReferences := allReferences + ReferencesFrom(program, func.body[i]);
      }
      assert func.body[..|func.body|] == func.body;

      funcsWithParams := [];
      var params: seq<Reference> := [];
      for i := 0 to |allReferences|
        invariant funcsWithParams == CallSites(program, allReferences[..i])
        invariant params == PendingParams(allReferences[..i])
      {
        var r := allReferences[i];
        ScanStep(program, allReferences, i);
        if r.kind == Param {
          params := params + [r];
        } else if r.kind == Call {
          var finalParams := params;
          funcsWithParams := funcsWithParams + [CallSite(FunctionAt(program, r.to), finalParams)];
          params := [];
        }
      }
      assert allReferences[..|allReferences|] == allReferences;
    }
  }
}

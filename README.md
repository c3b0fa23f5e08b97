# Dread analyzer core, modelled in Dafny

This project models the logic of `DreadAnalyzer`, the abstract base class that the
Dread Ghidra analyzers share. It covers three parts:

- **Build identification (`canAnalyze`).** A program is accepted only when its
  executable format is `"Nintendo Switch Binary"`. The known builds are then
  tried in declaration order, and the first one the program is compatible with
  is chosen. Build `1.0.0` is recognised by the MD5 of its compressed or its
  decompressed executable. Build `1.0.1` overrides the check and is compatible
  with every program. The chosen tag is stored in the analyzer's `version` field.
- **Routine table (`getRequiredCallees`).** Each well-known routine name is
  mapped to the function found at a fixed address. The two C++ guard routines
  have build-specific addresses. `ReadConfigValue`, `unk1` and `unk2` have the
  same address in every build.
- **Call-site extraction (`callsWithParams`).** The outgoing references of a
  function are gathered address by address and then scanned once. Parameter
  references collect in a pending list. Each call reference emits a record
  holding the callee and a copy of the pending list, then empties the list.
  Every other reference is skipped. Parameters left after the last call are
  dropped.

Files:

- `program_model.dfy` (module `ProgramModel`): the program as plain data. It
  holds the format label, the MD5 digest, the functions by entry address, and
  the references by origin address. `FunctionAt` is the lookup that stands for
  `functionAt` (`DreadAnalyzer.java:111-113`). It yields `None` where Java
  yields null. `ReferencesIn` gathers the references of a body.
- `version_table.dfy` (module `VersionTable`): the `GameHash` entries. The
  wildcard entry is its own constructor, `AlwaysCompatible`. The module also
  holds the predicate `ProgramIsCompatible` (`DreadAnalyzer.java:35-37`, with
  the override at line 56), the first-match search `FirstCompatible` and the
  specification `Identify`.
- `call_sites.dfy` (module `CallSiteSpec`): `CallSites` specifies call-site
  extraction without the pending-list algorithm. The reference sequence is cut
  at its first call reference. That call gives one record, whose parameters are
  the parameter references before it. The rest is cut the same way.
  `PendingParams` names the parameters that no record receives. The lemmas
  connect this specification to the one-pass algorithm and state its
  properties.
- `analyzer.dfy` (module `Analyzer`): the class `DreadAnalyzer`. It has the
  fields `version`, `forceRename` and `forceReanalysis`. Its three methods are
  imperative, like the Java: `CanAnalyze` loops and writes `version`,
  `GetRequiredCallees` fills a map, and `CallsWithParams` runs the two loops.
  Each method is proved against the specifications above.

Three points about the code's behaviour:

- Identification stores the tag in the `version` field rather than returning it.
- For a tag other than `1.0.0` or `1.0.1`, the guard names are absent from the
  routine map. They are not present with an empty value.
- A record's parameters are the parameter references before its call
  reference. The call reference itself is not included.

## Model

| member | source | states |
|---|---|---|
| `ProgramModel.FunctionAt` | src/main/java/dread/DreadAnalyzer.java:111-113 | Yields none (Java's null) exactly when no function has its entry at the address. Otherwise it yields the function whose entry is there. |
| `VersionTable.EntriesAccept` | src/main/java/dread/DreadAnalyzer.java:35-37 | `ProgramIsCompatible` on the 1.0.0 entry holds exactly when the program's MD5 is one of its two digests. The 1.0.1 override (line 56) holds for every program. A fingerprinted entry's answer depends only on the MD5. |
| `VersionTable.FirstCompatible` | src/main/java/dread/DreadAnalyzer.java:63-68 | Yields the index of a compatible entry that no earlier entry precedes. Yields none exactly when no entry of the table is compatible. |
| `VersionTable.Identify` | src/main/java/dread/DreadAnalyzer.java:46-70 | A format other than the Switch one gives no tag, whatever the MD5. A tag is given exactly when the format is right and some entry is compatible. The tag is the version of a compatible entry with no compatible entry declared before it. |
| `VersionTable.FirstDeclaredWins` | src/main/java/dread/DreadAnalyzer.java:63-67 | If entry i is compatible, the search stops at i or before it, and never at a later entry j. |
| `VersionTable.Version100Identified` | src/main/java/dread/DreadAnalyzer.java:48-53 | A Switch binary whose MD5 is either 1.0.0 digest is identified as `1.0.0`. |
| `VersionTable.OtherSwitchBinariesAre101` | src/main/java/dread/DreadAnalyzer.java:54-60 | Because the 1.0.1 entry always matches, any other Switch binary is identified as `1.0.1`. |
| `VersionTable.IdentifiedTagsAreKnown` | src/main/java/dread/DreadAnalyzer.java:48-61 | Every tag identification yields is `1.0.0` or `1.0.1`, the two tags the routine table distinguishes. |
| `Analyzer.DreadAnalyzer.constructor` | src/main/java/dread/DreadAnalyzer.java:43-73 | A new analyzer has no recorded version and both options off. |
| `Analyzer.DreadAnalyzer.CanAnalyze` | src/main/java/dread/DreadAnalyzer.java:46-70 | Returns true exactly when `Identify` gives a tag, and then stores that tag in `version`. On rejection `version` keeps its old value. A non-Switch format is always rejected. |
| `Analyzer.DreadAnalyzer.GetRequiredCallees` | src/main/java/dread/DreadAnalyzer.java:115-128 | Needs a recorded version. `ReadConfigValue`, `unk1` and `unk2` are always present, at 0x71000003d4, 0x7100080124 and 0x7100000250. The guard routines are at 0x71011f3000/0x71011f3010 for `1.0.0` and at 0x71011f37e0/0x71011f37f0 for `1.0.1`. For any other version they are absent, and the key set is exactly the three fixed names. |
| `Analyzer.DreadAnalyzer.CallsWithParams` | src/main/java/dread/DreadAnalyzer.java:135-162 | The records returned are exactly `CallSites` of the references gathered from the function's body, address by address. |
| `ProgramModel.ReferencesIn` | src/main/java/dread/DreadAnalyzer.java:138-141 | The gathered list holds exactly the references listed under the body's addresses. |
| `ProgramModel.ReferencesInAscending` | src/main/java/dread/DreadAnalyzer.java:139-140 | Suppose the body addresses are visited in ascending order and every reference originates where it is listed. Then the gathered references are in ascending origin order, and each originates in the body. |
| `CallSiteSpec.ExtendWithCall` | src/main/java/dread/DreadAnalyzer.java:149-157 | Appending a call reference adds exactly one record: the function at the call's destination, with the pending parameters. It leaves nothing pending. |
| `CallSiteSpec.ExtendWithNonCall` | src/main/java/dread/DreadAnalyzer.java:146-148 | Appending a non-call reference adds no record. A parameter joins the end of the pending list. Any other reference changes nothing. |
| `CallSiteSpec.ScanStep` | src/main/java/dread/DreadAnalyzer.java:145-158 | Scanning reference i moves the result from the prefix before i to the prefix including i. A call adds one record, carrying the pending parameters, and empties the pending list. A parameter is appended to the pending list. Anything else changes nothing. |
| `CallSiteSpec.CallAfterNoCall` | src/main/java/dread/DreadAnalyzer.java:144-157 | A call after a call-free prefix gives a single record, holding that prefix's parameters. Nothing is left pending. |
| `CallSiteSpec.NoSitesWithoutCall` | src/main/java/dread/DreadAnalyzer.java:143-161 | The result is empty exactly when there is no call reference. This covers an empty body and a body of parameters only. |
| `CallSiteSpec.OneSitePerCall` | src/main/java/dread/DreadAnalyzer.java:149-156 | There is one record per call reference, in call order. The i-th record's callee is the function at the i-th call's destination, or none when no function is there. |
| `CallSiteSpec.ParamsConserved` | src/main/java/dread/DreadAnalyzer.java:144-158 | The records' parameters, followed by the parameters pending after the last call, are exactly the input's parameter references in order. None is lost or duplicated. |
| `CallSiteSpec.OtherReferencesIgnored` | src/main/java/dread/DreadAnalyzer.java:145-159 | Removing every reference that is neither a parameter nor a call changes neither the records nor the pending list. |
| `CallSiteSpec.BackToBackCalls` | src/main/java/dread/DreadAnalyzer.java:149-157 | Two calls in a row give two records. The second record's parameter list is empty, and nothing is pending after it. |
| `CallSiteSpec.ParamsOfParams` | src/main/java/dread/DreadAnalyzer.java:146-147 | A run of parameter references is kept whole, in order, as a parameter list. |
| `CallSiteSpec.OneCallExample` | src/main/java/dread/DreadAnalyzer.java:145-158 | A parameter followed by a call gives one record, holding that parameter. |
| `CallSiteSpec.TwoCallsExample` | src/main/java/dread/DreadAnalyzer.java:145-158 | Parameter, parameter, call, parameter, call gives two records. The first call gets the first two parameters and the second call gets the third. |

## Left out

- `registerOptions` and `optionsChanged` (`DreadAnalyzer.java:74-85`) register and read two options through Ghidra's options API. The model keeps only the two fields they set.
- `priority` (`DreadAnalyzer.java:91-97`) walks Ghidra's `AnalysisPriority.getNext` chain, which is framework code not part of this model.
- `reflection` (`DreadAnalyzer.java:99-105`) creates a namespace in Ghidra's symbol table. That is a framework side effect with framework exceptions.
- `sourceType` (`DreadAnalyzer.java:87-89`) is a one-line selector on `forceRename`. The model defines `DreadAnalyzer.SourceType`, but it has no property beyond that definition.
- CanAnalyze, GetRequiredCallees: strings are never null in the model, so the Java's NullPointerException paths are not modelled. A program with no recorded MD5 makes `programIsCompatible` throw (line 36) before the 1.0.1 override is reached. A null format label throws at line 62. A null `version` throws at line 117; `GetRequiredCallees` requires a recorded version instead.
- `getDefaultEnablement` (`DreadAnalyzer.java:29-32`) is a constant `true` for the framework.
- Address strings such as `"0x71011f3000"` are parsed by Ghidra's `AddressFactory` (`DreadAnalyzer.java:107-109`). The model writes them as numbers.
- Ghidra's `FunctionManager` becomes the program's finite map from entry address to function.
- Ghidra's `ReferenceManager` becomes the program's map from origin address to references. Its source iterator over the body (`DreadAnalyzer.java:139`) becomes the function's ascending list of body addresses. An address without references contributes nothing, so visiting every body address gathers the same list.
- Ghidra's `RefType`/`FlowType` hierarchy becomes three kinds: parameter, call (any flow type whose `isCall` holds) and other.
- The MD5 digest and the executable format are computed by Ghidra. They are inputs here.
- Java object identity is not modelled. The anonymous `GameHash` and `FuncWithParams` objects become immutable values. The copied parameter list becomes a sequence value, so no two records can share a list.

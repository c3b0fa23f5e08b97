/**
  What call-site extraction computes, stated independently of the one-pass
  algorithm that computes it: the reference sequence of a function is split
  at its call references, and each call becomes one record carrying the
  parameter references of the segment that ends at it.
 */
module CallSiteSpec {
  import opened ProgramModel

  /** A reconstructed call: the function at the call's destination (None when
      no function starts there) and the parameter references that feed it. */
  datatype CallSite = CallSite(callee: Option<Function>, params: seq<Reference>)

  /** The references of `refs` whose kind is in `kinds`, in their original order. */
  function Select(refs: seq<Reference>, kinds: set<RefKind>): (sel: seq<Reference>)
    ensures |sel| <= |refs|
    ensures forall r :: r in sel <==> r in refs && r.kind in kinds
  {
    if refs == [] then []
    else
      var init, last := refs[..|refs| - 1], refs[|refs| - 1];
      assert forall r :: r in refs <==> r in init || r == last;
      Select(init, kinds) + (if last.kind in kinds then [last] else [])
  }

  function Params(refs: seq<Reference>): seq<Reference>
  {
    Select(refs, {Param})
  }

  ghost predicate NoCall(refs: seq<Reference>)
  {
    forall i :: 0 <= i < |refs| ==> refs[i].kind != Call
  }

  /** The position of the first call reference in `refs`. */
  function FirstCall(refs: seq<Reference>): (k: Option<nat>)
    ensures k.Some? ==> k.value < |refs| && refs[k.value].kind == Call && NoCall(refs[..k.value])
    ensures k.None? <==> NoCall(refs)
  {
    if refs == [] then None
    else if refs[0].kind == Call then Some(0)
    else
      match FirstCall(refs[1..])
      case None => None
      case Some(j) =>
        assert refs[..j + 1] == [refs[0]] + refs[1..][..j];
        Some(j + 1)
  }

  /** The call sites of a reference sequence: the first call reference closes
      the first segment and gives the first record, whose parameters are the
      parameter references before it; the rest is split the same way.
      References after the last call belong to no record. */
  function CallSites(program: Program, refs: seq<Reference>): seq<CallSite>
    decreases |refs|
  {
    match FirstCall(refs)
    case None => []
    case Some(k) =>
      [CallSite(FunctionAt(program, refs[k].to), Params(refs[..k]))] + CallSites(program, refs[k + 1..])
  }

  /** A sequence yields no record exactly when it holds no call reference;
      in particular an empty sequence, or one of parameters only, yields none. */
  lemma NoSitesWithoutCall(program: Program, refs: seq<Reference>)
    ensures CallSites(program, refs) == [] <==> NoCall(refs)
  {
  }

  /** The parameter references after the last call: those no record receives. */
  function PendingParams(refs: seq<Reference>): seq<Reference>
    decreases |refs|
  {
    match FirstCall(refs)
    case None => Params(refs)
    case Some(k) => PendingParams(refs[k + 1..])
  }

  /** All parameters of a sequence of records, record after record. */
  function AllParams(sites: seq<CallSite>): seq<Reference>
  {
    if sites == [] then [] else AllParams(sites[..|sites| - 1]) + sites[|sites| - 1].params
  }

  /** The first call of `refs` is found at `k` exactly when `k` holds a call
      and nothing before it does. */
  lemma FirstCallAt(refs: seq<Reference>, k: nat)
    requires k < |refs| && refs[k].kind == Call && NoCall(refs[..k])
    ensures FirstCall(refs) == Some(k)
  {
    assert forall i :: 0 <= i < k ==> refs[..k][i] == refs[i];
  }

  lemma AppendSlices(refs: seq<Reference>, r: Reference, k: nat)
    requires k < |refs|
    ensures (refs + [r])[..k] == refs[..k]
    ensures (refs + [r])[k + 1..] == refs[k + 1..] + [r]
  {
  }

  /** Splitting at a call that nothing before it precedes gives that call's
      record first, and leaves the rest of the sequence to be split the same way. */
  lemma SplitAtCall(program: Program, refs: seq<Reference>, k: nat)
    requires k < |refs| && refs[k].kind == Call && NoCall(refs[..k])
    ensures CallSites(program, refs) ==
      [CallSite(FunctionAt(program, refs[k].to), Params(refs[..k]))] + CallSites(program, refs[k + 1..])
    ensures PendingParams(refs) == PendingParams(refs[k + 1..])
  {
    FirstCallAt(refs, k);
  }

  /** A call closing a segment without calls gives exactly one record, holding
      the segment's parameters. */
  lemma CallAfterNoCall(program: Program, refs: seq<Reference>, c: Reference)
    requires c.kind == Call && NoCall(refs)
    ensures CallSites(program, refs + [c]) == [CallSite(FunctionAt(program, c.to), Params(refs))]
    ensures PendingParams(refs + [c]) == []
  {
    var ext := refs + [c];
    assert ext[..|refs|] == refs;
    SplitAtCall(program, ext, |refs|);
    assert ext[|refs| + 1..] == [];
  }

  /** Appending a call reference adds one record, for that call, holding the
      parameters pending before it, and leaves nothing pending. */
  lemma {:induction false} ExtendWithCall(program: Program, refs: seq<Reference>, c: Reference)
    requires c.kind == Call
    ensures CallSites(program, refs + [c]) ==
      CallSites(program, refs) + [CallSite(FunctionAt(program, c.to), PendingParams(refs))]
    ensures PendingParams(refs + [c]) == []
    decreases |refs|
  {
    var ext := refs + [c];
    var site := CallSite(FunctionAt(program, c.to), PendingParams(refs));
    if FirstCall(refs).None? {
      CallAfterNoCall(program, refs, c);
      assert PendingParams(refs) == Params(refs);
    } else {
      var k := FirstCall(refs).value;
      AppendSlices(refs, c, k);
      SplitAtCall(program, refs, k);
      SplitAtCall(program, ext, k);
      var rest := refs[k + 1..];
      ExtendWithCall(program, rest, c);
      assert ext[k] == refs[k];
      var head := CallSite(FunctionAt(program, refs[k].to), Params(refs[..k]));
      var restSites := CallSites(program, rest);
      assert [head] + (restSites + [site]) == ([head] + restSites) + [site];
    }
  }

  /** Appending a reference that is not a call adds no record; a parameter
      reference joins the pending list and any other reference changes nothing. */
  lemma {:induction false} ExtendWithNonCall(program: Program, refs: seq<Reference>, r: Reference)
    requires r.kind != Call
    ensures CallSites(program, refs + [r]) == CallSites(program, refs)
    ensures PendingParams(refs + [r]) ==
      PendingParams(refs) + (if r.kind == Param then [r] else [])
    decreases |refs|
  {
    var ext := refs + [r];
    if FirstCall(refs).None? {
      assert ext[..|refs|] == refs;
      assert NoCall(ext);
      assert PendingParams(refs) == Params(refs);
      assert PendingParams(ext) == Params(ext);
    } else {
      var k := FirstCall(refs).value;
      AppendSlices(refs, r, k);
      SplitAtCall(program, refs, k);
      SplitAtCall(program, ext, k);
      var rest := refs[k + 1..];
      ExtendWithNonCall(program, rest, r);
    }
  }

  /** One step of a left-to-right scan: how the records and the pending list
      of a prefix change when the prefix grows by the next reference. */
  lemma ScanStep(program: Program, refs: seq<Reference>, i: nat)
    requires i < |refs|
    ensures refs[i].kind == Call ==>
      CallSites(program, refs[..i + 1]) ==
        CallSites(program, refs[..i]) + [CallSite(FunctionAt(program, refs[i].to), PendingParams(refs[..i]))] &&
      PendingParams(refs[..i + 1]) == []
    ensures refs[i].kind != Call ==>
      CallSites(program, refs[..i + 1]) == CallSites(program, refs[..i]) &&
      PendingParams(refs[..i + 1]) ==
        PendingParams(refs[..i]) + (if refs[i].kind == Param then [refs[i]] else [])
  {
    assert refs[..i + 1] == refs[..i] + [refs[i]];
    if refs[i].kind == Call {
      ExtendWithCall(program, refs[..i], refs[i]);
    } else {
      ExtendWithNonCall(program, refs[..i], refs[i]);
    }
  }

  /** One record per call reference, in the order of the calls, each naming
      the function at that call's destination (None when there is none). */
  lemma {:induction false} OneSitePerCall(program: Program, refs: seq<Reference>)
    ensures |CallSites(program, refs)| == |Select(refs, {Call})|
    ensures forall i :: 0 <= i < |CallSites(program, refs)| ==>
      CallSites(program, refs)[i].callee == FunctionAt(program, Select(refs, {Call})[i].to)
  {
    if refs == [] {
      assert NoCall(refs);
    } else {
      var init, last := refs[..|refs| - 1], refs[|refs| - 1];
      assert refs == init + [last];
      OneSitePerCall(program, init);
      var sites, calls := CallSites(program, init), Select(init, {Call});
      assert Select(refs, {Call}) == calls + (if last.kind == Call then [last] else []);
      if last.kind == Call {
        ExtendWithCall(program, init, last);
        var site := CallSite(FunctionAt(program, last.to), PendingParams(init));
        forall i | 0 <= i < |sites| + 1
          ensures (sites + [site])[i].callee == FunctionAt(program, (calls + [last])[i].to)
        {
          if i < |sites| {
            assert (sites + [site])[i] == sites[i] && (calls + [last])[i] == calls[i];
          }
        }
      } else {
        ExtendWithNonCall(program, init, last);
      }
    }
  }

  /** No parameter reference is lost or duplicated: the records' parameters,
      followed by those pending after the last call, are exactly the parameter
      references of the input in order. */
  lemma {:induction false} ParamsConserved(program: Program, refs: seq<Reference>)
    ensures AllParams(CallSites(program, refs)) + PendingParams(refs) == Params(refs)
  {
    if refs == [] {
      assert NoCall(refs);
    } else {
      var init, last := refs[..|refs| - 1], refs[|refs| - 1];
      assert refs == init + [last];
      ParamsConserved(program, init);
      var sites := CallSites(program, init);
      if last.kind == Call {
        ExtendWithCall(program, init, last);
        var site := CallSite(FunctionAt(program, last.to), PendingParams(init));
        assert (sites + [site])[..|sites|] == sites;
        assert AllParams(sites + [site]) == AllParams(sites) + PendingParams(init);
      } else {
        ExtendWithNonCall(program, init, last);
        var front, pending := AllParams(sites), PendingParams(init);
        var tail := if last.kind == Param then [last] else [];
        assert front + (pending + tail) == (front + pending) + tail by {
          assert |front + (pending + tail)| == |(front + pending) + tail|;
        }
      }
    }
  }

  /** References that are neither parameters nor calls make no difference:
      removing them all leaves the records and the pending list unchanged. */
  lemma {:induction false} OtherReferencesIgnored(program: Program, refs: seq<Reference>)
    ensures CallSites(program, Select(refs, {Param, Call})) == CallSites(program, refs)
    ensures PendingParams(Select(refs, {Param, Call})) == PendingParams(refs)
  {
    if refs != [] {
      var init, last := refs[..|refs| - 1], refs[|refs| - 1];
      assert refs == init + [last];
      OtherReferencesIgnored(program, init);
      var kept := Select(init, {Param, Call});
      assert Select(refs, {Param, Call}) == kept + (if last.kind in {Param, Call} then [last] else []);
      if last.kind == Call {
        ExtendWithCall(program, init, last);
        ExtendWithCall(program, kept, last);
      } else if last.kind == Param {
        ExtendWithNonCall(program, init, last);
        ExtendWithNonCall(program, kept, last);
      } else {
        ExtendWithNonCall(program, init, last);
        assert kept + [] == kept;
      }
    }
  }

  /** Two calls in a row: the second call's record gets an empty parameter
      list, and nothing is pending after it. */
  lemma BackToBackCalls(program: Program, refs: seq<Reference>, c1: Reference, c2: Reference)
    requires c1.kind == Call && c2.kind == Call
    ensures CallSites(program, refs + [c1] + [c2]) ==
      CallSites(program, refs) + [CallSite(FunctionAt(program, c1.to), PendingParams(refs)),
                                  CallSite(FunctionAt(program, c2.to), [])]
    ensures PendingParams(refs + [c1] + [c2]) == []
  {
    ExtendWithCall(program, refs, c1);
    ExtendWithCall(program, refs + [c1], c2);
  }

  /** A sequence of parameter references is its own parameter list. */
  lemma {:induction false} ParamsOfParams(refs: seq<Reference>)
    requires forall i :: 0 <= i < |refs| ==> refs[i].kind == Param
    ensures Params(refs) == refs
  {
    if refs != [] {
      ParamsOfParams(refs[..|refs| - 1]);
      assert refs[..|refs| - 1] + [refs[|refs| - 1]] == refs;
    }
  }

  /** A parameter followed by a call gives one record holding that parameter. */
  lemma OneCallExample(program: Program, refs: seq<Reference>)
    requires |refs| == 2 && refs[0].kind == Param && refs[1].kind == Call
    ensures CallSites(program, refs) == [CallSite(FunctionAt(program, refs[1].to), refs[..1])]
  {
    SplitAtCall(program, refs, 1);
    ParamsOfParams(refs[..1]);
    assert NoCall(refs[2..]);
  }

  /** The worked example: parameter, parameter, call, parameter, call give two
      records, the first call with the first two parameters and the second
      call with the third. */
  lemma TwoCallsExample(program: Program, refs: seq<Reference>)
    requires |refs| == 5
    requires refs[0].kind == Param && refs[1].kind == Param && refs[2].kind == Call
    requires refs[3].kind == Param && refs[4].kind == Call
    ensures CallSites(program, refs) ==
      [CallSite(FunctionAt(program, refs[2].to), refs[..2]),
       CallSite(FunctionAt(program, refs[4].to), refs[3..4])]
  {
    var front, rest := refs[..2], refs[3..];
    assert front[0] == refs[0] && front[1] == refs[1];
    ParamsOfParams(front);
    OneCallExample(program, rest);
    assert rest[..1] == refs[3..4];
    SplitAtCall(program, refs, 2);
  }
}

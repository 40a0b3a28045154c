/**
 * Diff, then patch: the hunks UnifiedDiff builds from an edit script
 * (mdiff/format.go) make ApplyHunks (mdiff/patch.go) turn the script's old
 * lines into its new lines. Each hunk sits exactly where its header says,
 * the hunks come in order without overlapping, and every line between two
 * hunks is one the script keeps.
 */
module MdiffPatchRoundTrip {
  import opened MdiffDiff
  import opened MdiffHunks
  import opened Seqs
  import opened MdiffPatch

  /** The number of old lines the edits before edit j read. */
  function Pre(es: seq<Edit<string>>, j: nat): nat
    requires j <= |es|
  {
    |OldSide(es[..j])|
  }

  /** The old side of es cut at the old lines before edits a and b. */
  lemma {:induction false} OldSlice(es: seq<Edit<string>>, a: nat, b: nat)
    requires a <= b <= |es|
    ensures Pre(es, a) <= Pre(es, b) <= |OldSide(es)|
    ensures OldSide(es)[Pre(es, a)..Pre(es, b)] == OldSide(es[a..b])
    ensures OldSide(es)[Pre(es, a)..] == OldSide(es[a..])
  {
    SplitSides(es, a, b);
    SplitSides(es, b, |es|);
    SplitSides(es, a, |es|);
    assert es[..|es|] == es;
    assert es[a..|es|] == es[a..];
  }

  lemma {:induction false} NewSuffix(es: seq<Edit<string>>, a: nat, b: nat)
    requires a <= b <= |es|
    ensures NewSide(es[a..]) == NewSide(es[a..b]) + NewSide(es[b..])
  {
    assert es[a..] == es[a..b] + es[b..];
    SidesConcat(es[a..b], es[b..]);
  }

  /** Edits that all keep their line read and write the same lines. */
  lemma {:induction false} UnchangedSides(r: seq<Edit<string>>)
    requires forall j :: 0 <= j < |r| ==> r[j].kind == Equal
    ensures OldSide(r) == NewSide(r)
    decreases |r|
  {
    if |r| > 0 {
      var init := r[..|r| - 1];
      assert forall j :: 0 <= j < |init| ==> init[j] == r[j];
      UnchangedSides(init);
    }
  }

  // ---------------------------------------------------------------------
  // The gaps between the runs

  /** Where gap k begins: at i before the first run, else where run k-1 ends. */
  function GapLo(sp: seq<Span>, k: nat, i: nat): nat
    requires k <= |sp|
  {
    if k == 0 then i else sp[k - 1].end
  }

  /** Where gap k ends: where run k begins, or at n after the last run. */
  function GapHi(sp: seq<Span>, k: nat, n: nat): nat
    requires k <= |sp|
  {
    if k == |sp| then n else sp[k].start
  }

  predicate Excluded(inc: seq<bool>, lo: nat, hi: nat) {
    forall j :: lo <= j < hi && j < |inc| ==> !inc[j]
  }

  /** Every edit outside the runs is excluded. */
  predicate GapsExcluded(inc: seq<bool>, sp: seq<Span>, i: nat) {
    forall k :: 0 <= k <= |sp| ==> Excluded(inc, GapLo(sp, k, i), GapHi(sp, k, |inc|))
  }

  lemma {:induction false} SpansGaps(inc: seq<bool>, i: nat)
    requires i <= |inc|
    ensures GapsExcluded(inc, Spans(inc, i), i)
    decreases |inc| - i
  {
    var sp := Spans(inc, i);
    if i < |inc| {
      if !inc[i] {
        SpansGaps(inc, i + 1);
        assert sp == Spans(inc, i + 1);
        forall k | 0 <= k <= |sp| ensures Excluded(inc, GapLo(sp, k, i), GapHi(sp, k, |inc|)) {
          assert Excluded(inc, GapLo(sp, k, i + 1), GapHi(sp, k, |inc|));
        }
      } else {
        var t := RunEnd(inc, i);
        SpansGaps(inc, t);
        var sp' := Spans(inc, t);
        assert sp == [Span(i, t)] + sp';
        forall k | 0 <= k <= |sp| ensures Excluded(inc, GapLo(sp, k, i), GapHi(sp, k, |inc|)) {
          if k > 0 {
            assert GapLo(sp, k, i) == GapLo(sp', k - 1, t);
            assert GapHi(sp, k, |inc|) == GapHi(sp', k - 1, |inc|);
            assert Excluded(inc, GapLo(sp', k - 1, t), GapHi(sp', k - 1, |inc|));
          }
        }
      }
    }
  }

  /** An excluded stretch of edits holds no change, so it keeps its lines. */
  lemma {:induction false} GapUnchanged(es: seq<Edit<string>>, c: int, lo: nat, hi: nat)
    requires c >= 0 && lo <= hi <= |es| && Excluded(IncludedSeq(es, c), lo, hi)
    ensures OldSide(es[lo..hi]) == NewSide(es[lo..hi])
  {
    var r := es[lo..hi];
    forall j | 0 <= j < |r| ensures r[j].kind == Equal {
      var k := lo + j;
      assert lo <= k < hi && k < |IncludedSeq(es, c)|;
      assert !IncludedSeq(es, c)[k];
      assert !Included(es, c, k);
      assert k - c <= k <= k + c;
    }
    UnchangedSides(r);
  }

  // ---------------------------------------------------------------------
  // Where each hunk sits

  /** The hunk of a run that starts the script or starts with an Equal edit claims the run's own old lines. */
  lemma {:induction false} RunPlace(es: seq<Edit<string>>, s: nat, t: nat)
    requires Positioned(es, 0, 0) && s < t <= |es| && (s == 0 || es[s].kind == Equal)
    ensures StartIndex(HunkOf(es, s, t)) == Pre(es, s)
    ensures EndIndex(HunkOf(es, s, t)) == Pre(es, t)
    ensures OldTexts(HunkOf(es, s, t).lines) == OldSide(es[s..t])
    ensures NewTexts(HunkOf(es, s, t).lines) == NewSide(es[s..t])
  {
    HunkShape(es, s, t);
    SplitSides(es, s, t);
    if s > 0 {
      OldSideGrows(es, s, t);
    } else {
      assert es[..0] == [];
    }
  }

  lemma {:induction false} MatchSlice(lines: seq<string>, a: nat, b: nat)
    requires a <= b <= |lines|
    ensures MatchAt(Exact, lines, lines[a..b], a)
  {
  }

  /** Hunk k of a positioned script sits at its old lines, which it matches exactly. */
  lemma {:induction false} HunkPlace(es: seq<Edit<string>>, c: int, k: nat)
    requires c >= 1 && Positioned(es, 0, 0) && k < |Hunks(es, c)|
    ensures Spans(IncludedSeq(es, c), 0)[k].start < Spans(IncludedSeq(es, c), 0)[k].end <= |es|
    ensures StartIndex(Hunks(es, c)[k]) == Pre(es, Spans(IncludedSeq(es, c), 0)[k].start)
    ensures EndIndex(Hunks(es, c)[k]) == Pre(es, Spans(IncludedSeq(es, c), 0)[k].end)
    ensures NewTexts(Hunks(es, c)[k].lines) ==
      NewSide(es[Spans(IncludedSeq(es, c), 0)[k].start..Spans(IncludedSeq(es, c), 0)[k].end])
    ensures MatchAt(Exact, OldSide(es), OldTexts(Hunks(es, c)[k].lines), StartIndex(Hunks(es, c)[k]))
  {
    var inc := IncludedSeq(es, c);
    var sp := Spans(inc, 0);
    var s, t := sp[k].start, sp[k].end;
    assert Hunks(es, c)[k] == HunkOf(es, s, t);
    IncludedRunStarts(es, c);
    SpanStart(es, inc, k);
    RunPlace(es, s, t);
    OldSlice(es, s, t);
    MatchSlice(OldSide(es), Pre(es, s), Pre(es, t));
  }

  /** Gap i of the runs of a script is an excluded stretch of edits, which keeps its lines. */
  lemma {:induction false} GapAt(es: seq<Edit<string>>, c: int, i: nat)
    requires c >= 1 && i <= |Spans(IncludedSeq(es, c), 0)|
    ensures GapLo(Spans(IncludedSeq(es, c), 0), i, 0) <= GapHi(Spans(IncludedSeq(es, c), 0), i, |es|) <= |es|
    ensures OldSide(es[GapLo(Spans(IncludedSeq(es, c), 0), i, 0)..GapHi(Spans(IncludedSeq(es, c), 0), i, |es|)])
         == NewSide(es[GapLo(Spans(IncludedSeq(es, c), 0), i, 0)..GapHi(Spans(IncludedSeq(es, c), 0), i, |es|)])
  {
    var inc := IncludedSeq(es, c);
    var sp := Spans(inc, 0);
    SpansGaps(inc, 0);
    SpansOrdered(inc, 0);
    if 0 < i < |sp| {
      assert sp[i - 1].end <= sp[i].start;
    }
    assert Excluded(inc, GapLo(sp, i, 0), GapHi(sp, i, |inc|));
    GapUnchanged(es, c, GapLo(sp, i, 0), GapHi(sp, i, |es|));
  }

  /**
   * The shape of the hunks hs of the runs sp of a script es: the runs are
   * in order, the gaps between them keep their lines, and each hunk matches
   * its run's old lines exactly where its header says and holds the run's
   * new lines.
   */
  predicate Layout(es: seq<Edit<string>>, sp: seq<Span>, hs: seq<Hunk>) {
    && |hs| == |sp|
    && (forall k :: 0 <= k < |sp| ==> sp[k].start < sp[k].end <= |es|)
    && (forall k :: 0 <= k <= |sp| ==> GapLo(sp, k, 0) <= GapHi(sp, k, |es|) <= |es|)
    && (forall k :: 0 <= k <= |sp| ==>
          OldSide(es[GapLo(sp, k, 0)..GapHi(sp, k, |es|)]) == NewSide(es[GapLo(sp, k, 0)..GapHi(sp, k, |es|)]))
    && (forall k :: 0 <= k < |sp| ==>
          && StartIndex(hs[k]) == Pre(es, sp[k].start)
          && EndIndex(hs[k]) == Pre(es, sp[k].end)
          && NewTexts(hs[k].lines) == NewSide(es[sp[k].start..sp[k].end])
          && MatchAt(Exact, OldSide(es), OldTexts(hs[k].lines), StartIndex(hs[k])))
  }

  lemma {:induction false} HunksLayout(es: seq<Edit<string>>, c: int)
    requires c >= 1 && Positioned(es, 0, 0)
    ensures Layout(es, Spans(IncludedSeq(es, c), 0), Hunks(es, c))
  {
    var inc := IncludedSeq(es, c);
    var sp := Spans(inc, 0);
    var hs := Hunks(es, c);
    forall k | 0 <= k <= |sp|
      ensures GapLo(sp, k, 0) <= GapHi(sp, k, |es|) <= |es|
      ensures OldSide(es[GapLo(sp, k, 0)..GapHi(sp, k, |es|)]) == NewSide(es[GapLo(sp, k, 0)..GapHi(sp, k, |es|)])
    {
      GapAt(es, c, k);
    }
    forall k | 0 <= k < |sp|
      ensures StartIndex(hs[k]) == Pre(es, sp[k].start)
      ensures EndIndex(hs[k]) == Pre(es, sp[k].end)
      ensures NewTexts(hs[k].lines) == NewSide(es[sp[k].start..sp[k].end])
      ensures MatchAt(Exact, OldSide(es), OldTexts(hs[k].lines), StartIndex(hs[k]))
    {
      HunkPlace(es, c, k);
    }
  }

  /** Hunks laid out this way are placed exactly and in order in the script's old lines. */
  lemma {:induction false} LayoutPlaced(es: seq<Edit<string>>, sp: seq<Span>, hs: seq<Hunk>)
    requires Layout(es, sp, hs)
    ensures PlacedFrom(OldSide(es), hs, Exact, 0, 0)
  {
    forall j | 0 <= j && j + 1 < |hs| ensures EndIndex(hs[j]) <= StartIndex(hs[j + 1]) {
      assert GapLo(sp, j + 1, 0) <= GapHi(sp, j + 1, |es|);
      OldSlice(es, sp[j].end, sp[j + 1].start);
    }
  }

  /** After the last hunk the splice copies the rest of the old lines, which the script keeps. */
  lemma {:induction false} SplicedEnd(es: seq<Edit<string>>, sp: seq<Span>, hs: seq<Hunk>, lo: nat)
    requires Layout(es, sp, hs) && lo == GapLo(sp, |sp|, 0)
    ensures lo <= |es| && OldSide(es)[Pre(es, lo)..] == NewSide(es[lo..])
  {
    assert GapHi(sp, |sp|, |es|) == |es|;
    OldSlice(es, lo, |es|);
    assert es[lo..|es|] == es[lo..];
  }

  /** Hunk i spliced into the old lines after gap i gives the new side of the gap, the run and what follows. */
  lemma {:induction false} SplicedStep(es: seq<Edit<string>>, sp: seq<Span>, hs: seq<Hunk>, i: nat, lo: nat, rest: seq<string>)
    requires Layout(es, sp, hs) && i < |sp| && lo == GapLo(sp, i, 0)
    requires rest == NewSide(es[sp[i].end..])
    ensures Pre(es, lo) <= StartIndex(hs[i]) <= |OldSide(es)|
    ensures OldSide(es)[Pre(es, lo)..StartIndex(hs[i])] + NewTexts(hs[i].lines) + rest == NewSide(es[lo..])
  {
    var s, t := sp[i].start, sp[i].end;
    assert GapHi(sp, i, |es|) == s;
    OldSlice(es, lo, s);
    NewSuffix(es, lo, s);
    NewSuffix(es, s, t);
    AppendAssoc(NewSide(es[lo..s]), NewSide(es[s..t]), NewSide(es[t..]));
  }

  /**
   * The splice from hunk i on, given for each gap k where it starts in the
   * old lines (P[k]) and what the splice should give from there (W[k]).
   */
  lemma {:induction false} SplicedChain(orig: seq<string>, hs: seq<Hunk>, i: nat, P: seq<nat>, W: seq<seq<string>>)
    requires |P| == |W| == |hs| + 1 && i <= |hs|
    requires P[i] <= |orig| && PlacedFrom(orig, hs, Exact, i, P[i])
    requires forall k {:trigger hs[k]} :: i <= k < |hs| ==>
      && EndIndex(hs[k]) == P[k + 1]
      && P[k] <= StartIndex(hs[k]) <= |orig|
      && orig[P[k]..StartIndex(hs[k])] + NewTexts(hs[k].lines) + W[k + 1] == W[k]
    requires P[|hs|] <= |orig| && orig[P[|hs|]..] == W[|hs|]
    ensures Spliced(orig, hs, i, P[i]) == W[i]
    decreases |hs| - i
  {
    if i < |hs| {
      PlacedHead(orig, hs, Exact, i, P[i]);
      assert EndIndex(hs[i]) == P[i + 1];
      SplicedChain(orig, hs, i + 1, P, W);
    }
  }

  /** The exact splice of the hunks of a laid-out script gives its new lines. */
  lemma {:induction false} LayoutSpliced(es: seq<Edit<string>>, sp: seq<Span>, hs: seq<Hunk>)
    requires Layout(es, sp, hs)
    ensures PlacedFrom(OldSide(es), hs, Exact, 0, 0)
    ensures Spliced(OldSide(es), hs, 0, 0) == NewSide(es)
  {
    var o := OldSide(es);
    LayoutPlaced(es, sp, hs);
    var P := seq(|hs| + 1, k requires 0 <= k <= |hs| => Pre(es, GapLo(sp, k, 0)));
    var W := seq(|hs| + 1, k requires 0 <= k <= |hs| => NewSide(es[GapLo(sp, k, 0)..]));
    forall k {:trigger hs[k]} | 0 <= k < |hs|
      ensures EndIndex(hs[k]) == P[k + 1]
      ensures P[k] <= StartIndex(hs[k]) <= |o|
      ensures o[P[k]..StartIndex(hs[k])] + NewTexts(hs[k].lines) + W[k + 1] == W[k]
    {
      assert GapLo(sp, k + 1, 0) == sp[k].end;
      SplicedStep(es, sp, hs, k, GapLo(sp, k, 0), NewSide(es[sp[k].end..]));
    }
    SplicedEnd(es, sp, hs, GapLo(sp, |hs|, 0));
    OldSlice(es, GapLo(sp, |hs|, 0), |es|);
    assert es[..0] == [];
    assert P[0] == 0;
    SplicedChain(o, hs, 0, P, W);
    assert es[0..] == es;
  }

  /** The exact forward merge of the hunks of a laid-out script gives its new lines. */
  lemma {:induction false} LayoutForward(es: seq<Edit<string>>, sp: seq<Span>, hs: seq<Hunk>)
    requires Layout(es, sp, hs)
    ensures Placed(OldSide(es), hs, false)
    ensures Forward(OldSide(es), hs, false) == Merged(NewSide(es))
  {
    LayoutSpliced(es, sp, hs);
    ForwardFromExact(OldSide(es), hs, 0, 0, []);
    assert [] + Spliced(OldSide(es), hs, 0, 0) == NewSide(es);
  }

  /**
   * With at least one line of context, the exact forward merge of the hunks
   * of a positioned edit script places every hunk and turns the script's old
   * lines into its new lines.
   */
  lemma {:induction false} ForwardUnifiedHunks(es: seq<Edit<string>>, c: int)
    requires c >= 1 && Positioned(es, 0, 0)
    ensures Placed(OldSide(es), Hunks(es, c), false)
    ensures Forward(OldSide(es), Hunks(es, c), false) == Merged(NewSide(es))
  {
    HunksLayout(es, c);
    LayoutForward(es, Spans(IncludedSeq(es, c), 0), Hunks(es, c));
  }

  /** ApplyHunks on the hunks UnifiedDiff builds from a positioned script gives the script's new lines. */
  lemma {:induction false} PatchedUnifiedHunks(es: seq<Edit<string>>, c: int)
    requires c >= 1 && Positioned(es, 0, 0)
    ensures Patched(OldSide(es), Hunks(es, c)) == Applied(NewSide(es))
  {
    var hs := Hunks(es, c);
    if |hs| == 0 {
      var inc := IncludedSeq(es, c);
      SpansGaps(inc, 0);
      assert Excluded(inc, GapLo(Spans(inc, 0), 0, 0), GapHi(Spans(inc, 0), 0, |inc|));
      GapUnchanged(es, c, 0, |es|);
      assert es[0..|es|] == es;
    } else {
      HunksSorted(es, c);
      SortHunksSorted(hs);
      ForwardUnifiedHunks(es, c);
    }
  }

  /** ApplyHunks on the hunks of UnifiedDiff's file diff gives the new lines, whatever the context setting. */
  lemma {:induction false} PatchedFileDiffOf(oldName: string, newName: string, es: seq<Edit<string>>, contextLines: int)
    requires Positioned(es, 0, 0)
    ensures Patched(OldSide(es), FileDiffOf(oldName, newName, es, contextLines).hunks) == Applied(NewSide(es))
  {
    var c := if contextLines <= 0 then DefaultContextLines else contextLines;
    if HasChanges(es) {
      PatchedUnifiedHunks(es, c);
    } else {
      UnchangedSides(es);
    }
  }
}

/** From the hand-over to the screen: what the renderer reports drawn, of the
    frames the draw loop takes while receivers hand theirs over. */
module Pictures {
  import opened Common
  import opened Frames
  import opened Handover
  import opened HandoverRuns
  import opened Renderer

  lemma {:induction false} PrefixIsPossible(s: System, steps: seq<Step>, k: nat)
    requires Possible(s, steps) && k <= |steps|
    ensures Possible(s, steps[..k])
    ensures Possible(After(s, steps[..k]), steps[k..])
    ensures After(After(s, steps[..k]), steps[k..]) == After(s, steps)
    decreases k
  {
    if k == 0 {
      assert steps[..0] == [] && steps[0..] == steps;
    } else {
      var rest := steps[1..];
      PrefixIsPossible(Do(s, steps[0]), rest, k - 1);
      assert steps[..k][1..] == rest[..k - 1] && steps[k..] == rest[k - 1..];
    }
  }

  /** A moment at which the draw loop draws camera `c`: after how many steps,
      and what the scene and the graphics card bring. */
  datatype Look = Look(after: nat, shown: bool, makesSource: bool, makesConverted: bool)

  /** The camera's frame as it is given to the renderer then: none before the
      first was taken. */
  function TurnAt(s: System, c: nat, look: Look): Turn
    requires Formed(s) && c < |s.cameras|
  {
    var sequence := s.cameras[c].front.sequence;
    Turn(look.shown, if sequence == 0 then None else Some(Given(Held(s, c), sequence)),
         look.makesSource, look.makesConverted)
  }

  ghost predicate AreTurns(s: System, steps: seq<Step>, c: nat, looks: seq<Look>, turns: seq<Turn>)
    requires Possible(s, steps)
  {
    && |turns| == |looks|
    && forall i | 0 <= i < |looks| ::
         && looks[i].after <= |steps|
         && Possible(s, steps[..looks[i].after])
         && var t := After(s, steps[..looks[i].after]);
         && Formed(t) && c < |t.cameras|
         && turns[i] == TurnAt(t, c, looks[i])
  }

  lemma HeldIsHandedOver(s: System, steps: seq<Step>, k: nat, c: nat)
    requires Initial(s) && Possible(s, steps) && k <= |steps| && Possible(s, steps[..k])
    requires c < |After(s, steps[..k]).cameras|
    ensures AllWhole(After(s, steps[..k])) && c < |After(s, steps).cameras|
    ensures var t := After(s, steps[..k]);
            var n := t.cameras[c].front.sequence;
            n > 0 ==> n <= |After(s, steps).cameras[c].handed| && Held(t, c) == After(s, steps).cameras[c].handed[n - 1]
  {
    PrefixIsPossible(s, steps, k);
    HoldsExactlyOneFrame(s, steps[..k], c);
    HandedOnlyGrows(After(s, steps[..k]), steps[k..], c);
  }

  /** The frame a count names, of those handed over. */
  function Named(handed: seq<Picture>, n: nat): Picture {
    if 1 <= n <= |handed| then handed[n - 1] else Picture([], 0, 0, 0)
  }

  predicate IsNamed(handed: seq<Picture>, turn: Turn) {
    turn.given.Some? ==>
      && 1 <= turn.given.value.sequence <= |handed|
      && turn.given.value.frame == Named(handed, turn.given.value.sequence)
  }

  lemma TurnIsNamed(s: System, steps: seq<Step>, c: nat, look: Look)
    requires Initial(s) && Possible(s, steps) && look.after <= |steps| && Possible(s, steps[..look.after])
    requires Formed(After(s, steps[..look.after])) && c < |After(s, steps[..look.after]).cameras|
    ensures c < |After(s, steps).cameras|
    ensures IsNamed(After(s, steps).cameras[c].handed, TurnAt(After(s, steps[..look.after]), c, look))
  {
    HeldIsHandedOver(s, steps, look.after, c);
  }

  lemma AllAreNamed(s: System, steps: seq<Step>, c: nat, looks: seq<Look>, turns: seq<Turn>)
    requires Initial(s) && Possible(s, steps) && AreTurns(s, steps, c, looks, turns) && |turns| > 0
    ensures c < |After(s, steps).cameras|
    ensures forall i | 0 <= i < |turns| :: IsNamed(After(s, steps).cameras[c].handed, turns[i])
  {
    TurnIsNamed(s, steps, c, looks[0]);
    var handed := After(s, steps).cameras[c].handed;
    forall i | 0 <= i < |turns|
      ensures IsNamed(handed, turns[i])
    {
      TurnIsNamed(s, steps, c, looks[i]);
    }
  }

  lemma NamedTurnsCount(turns: seq<Turn>, handed: seq<Picture>)
    requires forall i | 0 <= i < |turns| :: IsNamed(handed, turns[i])
    ensures CountsName(turns, (n: nat) => Named(handed, n))
  {
  }

  lemma NamedTurnIsShown(turns: seq<Turn>, handed: seq<Picture>, n: nat)
    requires n < |turns| && Turned(Played(EMPTY, turns[..n]), turns[n]).1.Drawn?
    requires forall i | 0 <= i < |turns| :: IsNamed(handed, turns[i])
    ensures var shown := Turned(Played(EMPTY, turns[..n]), turns[n]).0.converted;
            && turns[n].given.Some?
            && 1 <= turns[n].given.value.sequence <= |handed|
            && shown == Some(Of(turns[n].given.value.frame)) == Some(Of(handed[turns[n].given.value.sequence - 1]))
  {
    var upTo := turns[..n] + [turns[n]];
    assert upTo == turns[..n + 1];
    forall i | 0 <= i < |upTo|
      ensures IsNamed(handed, upTo[i])
    {
      assert upTo[i] == turns[i];
    }
    NamedTurnsCount(upTo, handed);
    DrawnIsTheFrameGiven(turns[..n], turns[n], (k: nat) => Named(handed, k));
  }

  /** Under any interleaving of hand-overs and draws, whatever fails on the
      graphics card: a camera reported drawn shows exactly the frame the draw
      loop held at that moment, and that is a frame handed over under its
      count. */
  lemma DrawsAFrameHandedOver(s: System, steps: seq<Step>, c: nat, looks: seq<Look>, turns: seq<Turn>, n: nat)
    requires Initial(s) && Possible(s, steps) && AreTurns(s, steps, c, looks, turns)
    requires n < |turns| && Turned(Played(EMPTY, turns[..n]), turns[n]).1.Drawn?
    ensures c < |After(s, steps).cameras|
    ensures var shown := Turned(Played(EMPTY, turns[..n]), turns[n]).0.converted;
            var handed := After(s, steps).cameras[c].handed;
            && turns[n].given.Some?
            && 1 <= turns[n].given.value.sequence <= |handed|
            && shown == Some(Of(turns[n].given.value.frame)) == Some(Of(handed[turns[n].given.value.sequence - 1]))
  {
    AllAreNamed(s, steps, c, looks, turns);
    var handed := After(s, steps).cameras[c].handed;
    NamedTurnIsShown(turns, handed, n);
  }

  // ----- After other pictures

  predicate IsNamedGiven(handed: seq<Picture>, g: Given) {
    1 <= g.sequence <= |handed| && g.frame == Named(handed, g.sequence)
  }

  /** What is reported drawn later comes after what was, and is of the turns given
      since. */
  lemma {:induction false} DrawnSince(before: seq<Turn>, turns: seq<Turn>, handed: seq<Picture>)
    requires forall i | 0 <= i < |turns| :: IsNamed(handed, turns[i])
    ensures DrawnOf(before) <= DrawnOf(before + turns)
    ensures forall i | |DrawnOf(before)| <= i < |DrawnOf(before + turns)| ::
              IsNamedGiven(handed, DrawnOf(before + turns)[i])
  {
    if |turns| == 0 {
      assert before + turns == before;
    } else {
      var n := |turns| - 1;
      DrawnSince(before, turns[..n], handed);
      assert (before + turns)[..|before| + n] == before + turns[..n];
    }
  }

  /** What was converted last came since the first `k`, or nothing since had
      another count than the last of them. */
  lemma {:induction false} ConvertedSince(drawn: seq<Given>, k: nat)
    requires 0 < |drawn| && k <= |drawn|
    ensures LastConverted(drawn).sequence == drawn[|drawn| - 1].sequence
    ensures if k > 0 && forall i | k <= i < |drawn| :: drawn[i].sequence == drawn[k - 1].sequence
            then LastConverted(drawn) == LastConverted(drawn[..k])
            else exists i :: k <= i < |drawn| && LastConverted(drawn) == drawn[i]
  {
    var n := |drawn| - 1;
    if k > n {
      assert drawn[..k] == drawn;
      if n > 0 && drawn[n].sequence == drawn[n - 1].sequence {
        ConvertedSince(drawn[..n], n);
      }
    } else if n > 0 && drawn[n].sequence == drawn[n - 1].sequence {
      ConvertedSince(drawn[..n], k);
      assert drawn[..n][..k] == drawn[..k];
      assert k > 0 && (forall i | k <= i < n :: drawn[..n][i].sequence == drawn[k - 1].sequence) ==>
          forall i | k <= i < |drawn| :: drawn[i].sequence == drawn[k - 1].sequence;
      assert k > 0 && (forall i | k <= i < |drawn| :: drawn[i].sequence == drawn[k - 1].sequence) ==>
          forall i | k <= i < n :: drawn[..n][i].sequence == drawn[k - 1].sequence;
    } else {
      assert LastConverted(drawn) == drawn[n];
    }
  }

  /** Of what was drawn, the first `k` before: their last picture still stands for
      this frame, as nothing drawn since, nor the frame, has another count, and
      what was converted for that count was not this frame. */
  predicate StillTheOldOne(drawn: seq<Given>, k: nat, g: Given)
    requires k <= |drawn|
  {
    && k > 0
    && (forall i | k <= i < |drawn| :: drawn[i].sequence == drawn[k - 1].sequence)
    && g.sequence == drawn[k - 1].sequence
    && LastConverted(drawn[..k]).frame != g.frame
  }

  lemma LastConvertedIsOfTheCount(drawn: seq<Given>, k: nat, g: Given, handed: seq<Picture>)
    requires k <= |drawn| && IsNamedGiven(handed, g)
    requires forall i | k <= i < |drawn| :: IsNamedGiven(handed, drawn[i])
    ensures |drawn| == 0 || drawn[|drawn| - 1].sequence != g.sequence || LastConverted(drawn).frame == g.frame
            <==> !StillTheOldOne(drawn, k, g)
  {
    if |drawn| > 0 {
      ConvertedSince(drawn, k);
    }
  }

  /** The frame given is of those handed over, and it is what is shown unless a
      picture of before still stands for it. */
  predicate ShownIff(before: seq<Turn>, turns: seq<Turn>, turn: Turn, handed: seq<Picture>) {
    var drawn, k := DrawnOf(before + turns), |DrawnOf(before)|;
    && turn.given.Some? && k <= |drawn|
    && var g := turn.given.value;
    && 1 <= g.sequence <= |handed|
    && (Turned(Played(EMPTY, before + turns), turn).0.converted == Some(Of(handed[g.sequence - 1]))
        <==> !StillTheOldOne(drawn, k, g))
  }

  lemma ShownUnlessTheOldOne(before: seq<Turn>, turns: seq<Turn>, turn: Turn, handed: seq<Picture>)
    requires forall i | 0 <= i < |turns| :: IsNamed(handed, turns[i])
    requires IsNamed(handed, turn) && Turned(Played(EMPTY, before + turns), turn).1.Drawn?
    ensures ShownIff(before, turns, turn, handed)
  {
    DrawnIsShownIff(before + turns, turn);
    DrawnSince(before, turns, handed);
    LastConvertedIsOfTheCount(DrawnOf(before + turns), |DrawnOf(before)|, turn.given.value, handed);
  }

  /** Whatever the renderer drew before, test cards included: a frame of vMix's
      reported drawn is shown, and is the one handed over under its count, if and
      only if no picture of before still stands for it. */
  lemma DrawsAfterOtherPicturesIff(
    s: System, steps: seq<Step>, c: nat, looks: seq<Look>, turns: seq<Turn>, n: nat, before: seq<Turn>)
    requires Initial(s) && Possible(s, steps) && AreTurns(s, steps, c, looks, turns)
    requires n < |turns| && Turned(Played(EMPTY, before + turns[..n]), turns[n]).1.Drawn?
    ensures c < |After(s, steps).cameras| && ShownIff(before, turns[..n], turns[n], After(s, steps).cameras[c].handed)
  {
    AllAreNamed(s, steps, c, looks, turns);
    var handed := After(s, steps).cameras[c].handed;
    ShownUnlessTheOldOne(before, turns[..n], turns[n], handed);
  }
}

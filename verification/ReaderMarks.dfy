/**
 Taking highlights off a piece of text: the piece is lifted out of every mark around it by splitting the
 marks. The document is kept as the piece together with the elements around it, innermost first.
 */
module ReaderMarks {

  datatype Tag = Mark(id: string) | Other(name: string)

  datatype Dom = Text(text: string) | Element(tag: Tag, children: seq<Dom>)

  /** An element around the piece, with its children before and after the one that leads to the piece. */
  datatype Frame = Frame(tag: Tag, before: seq<Dom>, after: seq<Dom>)

  /** One character with the highlights it lies in, outermost first. */
  datatype Run = Run(letter: char, ids: seq<string>)

  function Around(tag: Tag, ids: seq<string>): seq<string> {
    if tag.Mark? then ids + [tag.id] else ids
  }

  function TextRuns(text: string, ids: seq<string>): seq<Run> {
    if text == "" then [] else [Run(text[0], ids)] + TextRuns(text[1..], ids)
  }

  function Runs(dom: Dom, ids: seq<string>): seq<Run> {
    match dom
    case Text(text) => TextRuns(text, ids)
    case Element(tag, children) => AllRuns(children, Around(tag, ids))
  }

  function AllRuns(doms: seq<Dom>, ids: seq<string>): seq<Run> {
    if doms == [] then [] else Runs(doms[0], ids) + AllRuns(doms[1..], ids)
  }

  /** The highlights around whatever the frames enclose. */
  function Ids(frames: seq<Frame>): seq<string> {
    if frames == [] then [] else Around(frames[0].tag, Ids(frames[1..]))
  }

  /** The whole document: the frames closed around the piece. */
  function Zip(frames: seq<Frame>, pieces: seq<Dom>): seq<Dom>
    decreases frames
  {
    if frames == [] then pieces
    else Zip(frames[1..], [Element(frames[0].tag, frames[0].before + pieces + frames[0].after)])
  }

  function BeforeRuns(frames: seq<Frame>): seq<Run> {
    if frames == [] then [] else BeforeRuns(frames[1..]) + AllRuns(frames[0].before, Ids(frames))
  }

  function AfterRuns(frames: seq<Frame>): seq<Run> {
    if frames == [] then [] else AllRuns(frames[0].after, Ids(frames)) + AfterRuns(frames[1..])
  }

  lemma {:induction false} AllRunsConcat(a: seq<Dom>, b: seq<Dom>, ids: seq<string>)
    ensures AllRuns(a + b, ids) == AllRuns(a, ids) + AllRuns(b, ids)
  {
    hide Runs;
    if a == [] {
      assert a + b == b;
    } else {
      assert (a + b)[1..] == a[1..] + b;
      AllRunsConcat(a[1..], b, ids);
    }
  }

  lemma OneRuns(dom: Dom, ids: seq<string>)
    ensures AllRuns([dom], ids) == Runs(dom, ids)
  {
    hide Runs;
    assert [dom][1..] == [];
  }

  /** Reading the document is reading what lies before the piece, the piece, and what lies after it. */
  lemma {:induction false} RunsOfDocument(frames: seq<Frame>, pieces: seq<Dom>)
    ensures AllRuns(Zip(frames, pieces), []) == BeforeRuns(frames) + AllRuns(pieces, Ids(frames)) + AfterRuns(frames)
    decreases frames
  {
    if frames != [] {
      var frame, rest := frames[0], frames[1..];
      var inner := frame.before + pieces + frame.after;
      var element := Element(frame.tag, inner);
      RunsOfDocument(rest, [element]);
      OneRuns(element, Ids(rest));
      AllRunsConcat(frame.before + pieces, frame.after, Ids(frames));
      AllRunsConcat(frame.before, pieces, Ids(frames));
    }
  }

  // Lifting

  predicate HasMark(frames: seq<Frame>) {
    exists i :: 0 <= i < |frames| && frames[i].tag.Mark?
  }

  /** The innermost mark around the piece. */
  function ClosestMark(frames: seq<Frame>): (i: nat)
    requires HasMark(frames)
    ensures i < |frames| && frames[i].tag.Mark? && forall j :: 0 <= j < i ==> !frames[j].tag.Mark?
  {
    if frames[0].tag.Mark? then 0
    else
      assert exists i :: 0 <= i < |frames[1..]| && frames[1..][i].tag.Mark? by {
        var i :| 0 <= i < |frames| && frames[i].tag.Mark?;
        assert frames[1..][i - 1] == frames[i];
      }
      1 + ClosestMark(frames[1..])
  }

  /** A mark around some children, unless there are none. */
  function Wrapped(tag: Tag, children: seq<Dom>): seq<Dom> {
    if children == [] then [] else [Element(tag, children)]
  }

  /** The mark is split around the child that leads to the piece, which moves up beside the two halves. */
  function LiftAt(frames: seq<Frame>, i: nat): seq<Frame>
    requires i + 1 < |frames|
  {
    var mark, parent := frames[i], frames[i + 1];
    frames[..i]
    + [Frame(parent.tag, parent.before + Wrapped(mark.tag, mark.before), Wrapped(mark.tag, mark.after) + parent.after)]
    + frames[i + 2..]
  }

  function CountMarks(frames: seq<Frame>): nat {
    if frames == [] then 0 else (if frames[0].tag.Mark? then 1 else 0) + CountMarks(frames[1..])
  }

  /** The outermost element is not itself a highlight. */
  predicate Rooted(frames: seq<Frame>) {
    frames != [] && !frames[|frames| - 1].tag.Mark?
  }

  lemma {:induction false} LiftCounts(frames: seq<Frame>, i: nat)
    requires i + 1 < |frames| && frames[i].tag.Mark?
    ensures CountMarks(LiftAt(frames, i)) == CountMarks(frames) - 1
    ensures Rooted(frames) ==> Rooted(LiftAt(frames, i))
  {
    if i == 0 {
      assert LiftAt(frames, 0)[1..] == frames[2..] == frames[1..][1..];
    } else {
      LiftCounts(frames[1..], i - 1);
      LiftInside(frames, i);
    }
  }

  lemma LiftInside(frames: seq<Frame>, i: nat)
    requires 0 < i && i + 1 < |frames|
    ensures LiftAt(frames, i) == [frames[0]] + LiftAt(frames[1..], i - 1)
  {
    assert frames[1..][..i - 1] == frames[1..i];
    assert frames[..i] == [frames[0]] + frames[1..i];
    assert frames[1..][i - 1 + 2..] == frames[i + 2..];
  }

  /** Lifting until no mark is left around the piece. */
  function LiftAll(frames: seq<Frame>): seq<Frame>
    requires Rooted(frames)
    decreases CountMarks(frames)
  {
    if HasMark(frames) then
      var i := ClosestMark(frames);
      LiftCounts(frames, i);
      LiftAll(LiftAt(frames, i))
    else frames
  }

  class ReaderDocument {
    var frames: seq<Frame>
    const pieces: seq<Dom>

    constructor (frames: seq<Frame>, pieces: seq<Dom>)
      ensures this.frames == frames && this.pieces == pieces
    {
      this.frames, this.pieces := frames, pieces;
    }

    /** The closest mark from the piece outwards. */
    method FindClosestMark() returns (mark: int)
      ensures mark == if HasMark(frames) then ClosestMark(frames) else -1
    {
      mark := 0;
      while mark < |frames| && !frames[mark].tag.Mark?
        invariant 0 <= mark <= |frames|
        invariant forall j :: 0 <= j < mark ==> !frames[j].tag.Mark?
      {
        mark := mark + 1;
      }
      if mark == |frames| {
        mark := -1;
      }
    }

    method LiftChildOutOfMark(mark: nat)
      requires mark < |frames|
      modifies this
      ensures frames == if mark + 1 < |old(frames)| then LiftAt(old(frames), mark) else old(frames)
    {
      if mark + 1 < |frames| {
        var outer := frames[mark + 1];
        var afterMark := frames[mark].after;
        var before := outer.before;
        if frames[mark].before != [] {
          before := before + [Element(frames[mark].tag, frames[mark].before)];
        }
        var after := outer.after;
        if afterMark != [] {
          after := [Element(frames[mark].tag, afterMark)] + after;
        }
        assert after == Wrapped(frames[mark].tag, afterMark) + outer.after;
        assert before == outer.before + Wrapped(frames[mark].tag, frames[mark].before);
        frames := frames[..mark] + [Frame(outer.tag, before, after)] + frames[mark + 2..];
      }
    }

    /** Ends because every round leaves one mark less around the piece. */
    method LiftNodeOutOfFlashbackMarks()
      requires Rooted(frames)
      modifies this
      ensures frames == LiftAll(old(frames))
    {
      var mark := FindClosestMark();
      while mark != -1
        invariant Rooted(frames) && LiftAll(frames) == LiftAll(old(frames))
        invariant mark == if HasMark(frames) then ClosestMark(frames) else -1
        decreases CountMarks(frames)
      {
        LiftCounts(frames, mark);
        LiftChildOutOfMark(mark);
        mark := FindClosestMark();
      }
    }
  }

  /** Without a parent a mark cannot be split, and the loop would come back to it for ever. */
  lemma RootMarkStays(frames: seq<Frame>)
    requires frames != [] && frames[|frames| - 1].tag.Mark? && CountMarks(frames) == 1
    ensures HasMark(frames) && ClosestMark(frames) == |frames| - 1
  {
    OnlyMarkIsLast(frames);
  }

  lemma {:induction false} OnlyMarkIsLast(frames: seq<Frame>)
    requires frames != [] && frames[|frames| - 1].tag.Mark? && CountMarks(frames) == 1
    ensures forall j :: 0 <= j < |frames| - 1 ==> !frames[j].tag.Mark?
  {
    if |frames| > 1 {
      LastCounts(frames[1..]);
      OnlyMarkIsLast(frames[1..]);
      assert forall j :: 1 <= j < |frames| - 1 ==> frames[j] == frames[1..][j - 1];
    }
  }

  lemma {:induction false} LastCounts(frames: seq<Frame>)
    requires frames != [] && frames[|frames| - 1].tag.Mark?
    ensures CountMarks(frames) >= 1
  {
    if |frames| > 1 {
      LastCounts(frames[1..]);
    }
  }

  // What lifting keeps

  /** The highlights that text directly inside the innermost frame keeps: those of the marks up to the next other element. */
  function KeptIds(frames: seq<Frame>): seq<string> {
    if frames == [] || !frames[0].tag.Mark? then [] else KeptIds(frames[1..]) + [frames[0].tag.id]
  }

  function KeptBefore(frames: seq<Frame>): seq<Run> {
    if frames == [] then [] else KeptBefore(frames[1..]) + AllRuns(frames[0].before, KeptIds(frames))
  }

  function KeptAfter(frames: seq<Frame>): seq<Run> {
    if frames == [] then [] else AllRuns(frames[0].after, KeptIds(frames)) + KeptAfter(frames[1..])
  }

  lemma WrappedRuns(tag: Tag, children: seq<Dom>, ids: seq<string>)
    ensures AllRuns(Wrapped(tag, children), ids) == AllRuns(children, Around(tag, ids))
  {
    if children != [] {
      OneRuns(Element(tag, children), ids);
    }
  }

  lemma {:induction false} NoMarkNothingKept(frames: seq<Frame>)
    requires !HasMark(frames)
    ensures Ids(frames) == [] && KeptIds(frames) == []
    ensures KeptBefore(frames) == BeforeRuns(frames) && KeptAfter(frames) == AfterRuns(frames)
  {
    if frames != [] {
      assert forall i :: 0 <= i < |frames[1..]| ==> frames[1..][i] == frames[i + 1];
      assert !frames[0].tag.Mark?;
      NoMarkNothingKept(frames[1..]);
    }
  }

  /** A split changes nothing about what will be kept. */
  lemma {:induction false} SplitKeeps(frames: seq<Frame>, i: nat)
    requires i + 1 < |frames| && frames[i].tag.Mark? && forall j :: 0 <= j < i ==> !frames[j].tag.Mark?
    ensures KeptBefore(LiftAt(frames, i)) == KeptBefore(frames)
    ensures KeptAfter(LiftAt(frames, i)) == KeptAfter(frames)
  {
    if i == 0 {
      SplitFirstKeeps(frames);
    } else {
      assert forall j :: 0 <= j < i - 1 ==> frames[1..][j] == frames[j + 1];
      SplitKeeps(frames[1..], i - 1);
      LiftInside(frames, i);
      assert LiftAt(frames, i)[1..] == LiftAt(frames[1..], i - 1);
    }
  }

  lemma SplitFirstKeeps(frames: seq<Frame>)
    requires 1 < |frames| && frames[0].tag.Mark?
    ensures KeptBefore(LiftAt(frames, 0)) == KeptBefore(frames)
    ensures KeptAfter(LiftAt(frames, 0)) == KeptAfter(frames)
  {
    hide AllRuns, Wrapped, KeptIds, KeptBefore, KeptAfter;
    var mark, parent, outer := frames[0], frames[1], frames[2..];
    var lifted := LiftAt(frames, 0);
    var inner := frames[1..];
    assert inner[0] == parent && inner[1..] == outer;
    assert lifted[1..] == outer;
    SplitKeptIds(frames);
    FirstKept(frames);
    FirstKept(inner);
    FirstKept(lifted);
    SplitKept(mark, parent, KeptIds(inner), KeptBefore(outer), KeptAfter(outer));
  }

  lemma FirstKept(frames: seq<Frame>)
    requires frames != []
    ensures KeptBefore(frames) == KeptBefore(frames[1..]) + AllRuns(frames[0].before, KeptIds(frames))
    ensures KeptAfter(frames) == AllRuns(frames[0].after, KeptIds(frames)) + KeptAfter(frames[1..])
  {
  }

  lemma SplitKeptIds(frames: seq<Frame>)
    requires 1 < |frames| && frames[0].tag.Mark?
    ensures KeptIds(LiftAt(frames, 0)) == KeptIds(frames[1..])
    ensures KeptIds(frames) == Around(frames[0].tag, KeptIds(frames[1..]))
  {
    assert LiftAt(frames, 0)[1..] == frames[2..] == frames[1..][1..];
  }

  lemma SplitKept(mark: Frame, parent: Frame, ids: seq<string>, before: seq<Run>, after: seq<Run>)
    ensures before + AllRuns(parent.before + Wrapped(mark.tag, mark.before), ids)
         == before + AllRuns(parent.before, ids) + AllRuns(mark.before, Around(mark.tag, ids))
    ensures AllRuns(Wrapped(mark.tag, mark.after) + parent.after, ids) + after
         == AllRuns(mark.after, Around(mark.tag, ids)) + (AllRuns(parent.after, ids) + after)
  {
    hide AllRuns, Wrapped;
    AllRunsConcat(parent.before, Wrapped(mark.tag, mark.before), ids);
    AllRunsConcat(Wrapped(mark.tag, mark.after), parent.after, ids);
    WrappedRuns(mark.tag, mark.before, ids);
    WrappedRuns(mark.tag, mark.after, ids);
  }

  /** In the end the piece lies in no mark, and text around it keeps the marks up to the next other element. */
  lemma {:induction false} LiftAllKeeps(frames: seq<Frame>)
    requires Rooted(frames)
    ensures var lifted := LiftAll(frames);
            && Ids(lifted) == [] && !HasMark(lifted) && Rooted(lifted)
            && BeforeRuns(lifted) == KeptBefore(frames) && AfterRuns(lifted) == KeptAfter(frames)
    decreases CountMarks(frames)
  {
    hide AllRuns, LiftAt;
    if HasMark(frames) {
      var i := ClosestMark(frames);
      LiftCounts(frames, i);
      SplitKeeps(frames, i);
      LiftAllKeeps(LiftAt(frames, i));
    } else {
      NoMarkNothingKept(frames);
    }
  }

  /** The elements around the piece that are no marks, innermost first. */
  function OtherTags(frames: seq<Frame>): seq<Tag> {
    if frames == [] then [] else (if frames[0].tag.Mark? then [] else [frames[0].tag]) + OtherTags(frames[1..])
  }

  lemma {:induction false} SplitKeepsTags(frames: seq<Frame>, i: nat)
    requires i + 1 < |frames| && frames[i].tag.Mark?
    ensures OtherTags(LiftAt(frames, i)) == OtherTags(frames)
  {
    if i == 0 {
      assert LiftAt(frames, 0)[1..] == frames[2..] == frames[1..][1..];
    } else {
      SplitKeepsTags(frames[1..], i - 1);
      LiftInside(frames, i);
      assert LiftAt(frames, i)[1..] == LiftAt(frames[1..], i - 1);
    }
  }

  /** After lifting, exactly the other elements are around the piece, in their order. */
  lemma {:induction false} LiftingKeepsElements(frames: seq<Frame>)
    requires Rooted(frames)
    ensures OtherTags(LiftAll(frames)) == OtherTags(frames)
    ensures |LiftAll(frames)| == |OtherTags(frames)| && forall i :: 0 <= i < |LiftAll(frames)| ==> LiftAll(frames)[i].tag == OtherTags(frames)[i]
    decreases CountMarks(frames)
  {
    hide LiftAt;
    if HasMark(frames) {
      var i := ClosestMark(frames);
      LiftCounts(frames, i);
      SplitKeepsTags(frames, i);
      LiftingKeepsElements(LiftAt(frames, i));
    } else {
      OnlyOthers(frames);
    }
  }

  lemma {:induction false} OnlyOthers(frames: seq<Frame>)
    requires !HasMark(frames)
    ensures |OtherTags(frames)| == |frames| && forall i :: 0 <= i < |frames| ==> frames[i].tag == OtherTags(frames)[i]
  {
    if frames != [] {
      assert forall i :: 0 <= i < |frames[1..]| ==> frames[1..][i] == frames[i + 1];
      assert !frames[0].tag.Mark?;
      OnlyOthers(frames[1..]);
    }
  }

  // Text

  function Chars(runs: seq<Run>): string {
    if runs == [] then "" else [runs[0].letter] + Chars(runs[1..])
  }

  lemma {:induction false} CharsConcat(a: seq<Run>, b: seq<Run>)
    ensures Chars(a + b) == Chars(a) + Chars(b)
  {
    if a == [] {
      assert a + b == b;
    } else {
      assert (a + b)[1..] == a[1..] + b;
      CharsConcat(a[1..], b);
    }
  }

  lemma {:induction false} TextRunsChars(text: string, ids: seq<string>)
    ensures Chars(TextRuns(text, ids)) == text
  {
    if text != "" {
      TextRunsChars(text[1..], ids);
      assert ([Run(text[0], ids)] + TextRuns(text[1..], ids))[1..] == TextRuns(text[1..], ids);
    }
  }

  /** The characters do not depend on the highlights around. */
  lemma {:induction false} SameChars(doms: seq<Dom>, a: seq<string>, b: seq<string>)
    ensures Chars(AllRuns(doms, a)) == Chars(AllRuns(doms, b)) && |AllRuns(doms, a)| == |AllRuns(doms, b)|
    decreases doms
  {
    if doms != [] {
      SameChars(doms[1..], a, b);
      match doms[0] {
        case Text(text) =>
          TextRunsChars(text, a);
          TextRunsChars(text, b);
          TextRunsLength(text, a);
          TextRunsLength(text, b);
        case Element(tag, children) =>
          SameChars(children, Around(tag, a), Around(tag, b));
      }
      CharsConcat(Runs(doms[0], a), AllRuns(doms[1..], a));
      CharsConcat(Runs(doms[0], b), AllRuns(doms[1..], b));
    }
  }

  lemma {:induction false} TextRunsLength(text: string, ids: seq<string>)
    ensures |TextRuns(text, ids)| == |text|
  {
    if text != "" {
      TextRunsLength(text[1..], ids);
    }
  }

  lemma {:induction false} KeptSameChars(frames: seq<Frame>)
    ensures Chars(KeptBefore(frames)) == Chars(BeforeRuns(frames)) && |KeptBefore(frames)| == |BeforeRuns(frames)|
    ensures Chars(KeptAfter(frames)) == Chars(AfterRuns(frames)) && |KeptAfter(frames)| == |AfterRuns(frames)|
  {
    hide AllRuns;
    if frames != [] {
      var frame, rest := frames[0], frames[1..];
      KeptSameChars(rest);
      SameChars(frame.before, KeptIds(frames), Ids(frames));
      SameChars(frame.after, KeptIds(frames), Ids(frames));
      CharsConcat(KeptBefore(rest), AllRuns(frame.before, KeptIds(frames)));
      CharsConcat(BeforeRuns(rest), AllRuns(frame.before, Ids(frames)));
      CharsConcat(AllRuns(frame.after, KeptIds(frames)), KeptAfter(rest));
      CharsConcat(AllRuns(frame.after, Ids(frames)), AfterRuns(rest));
    }
  }

  /**
   Lifting leaves the text of the document unchanged and in order; the piece ends up outside every mark,
   and other text keeps exactly the marks up to the next element that is not a mark.
   */
  lemma LiftingPreservesText(frames: seq<Frame>, pieces: seq<Dom>)
    requires Rooted(frames)
    ensures var before, after := AllRuns(Zip(frames, pieces), []), AllRuns(Zip(LiftAll(frames), pieces), []);
            && Chars(after) == Chars(before)
            && after == KeptBefore(frames) + AllRuns(pieces, []) + KeptAfter(frames)
  {
    hide AllRuns, Zip, LiftAll, Chars;
    RunsOfDocument(frames, pieces);
    RunsOfDocument(LiftAll(frames), pieces);
    LiftAllKeeps(frames);
    KeptSameChars(frames);
    SameChars(pieces, Ids(frames), []);
    CharsConcat(BeforeRuns(frames) + AllRuns(pieces, Ids(frames)), AfterRuns(frames));
    CharsConcat(BeforeRuns(frames), AllRuns(pieces, Ids(frames)));
    CharsConcat(KeptBefore(frames) + AllRuns(pieces, []), KeptAfter(frames));
    CharsConcat(KeptBefore(frames), AllRuns(pieces, []));
  }

  /** One split: text in the mark itself and further out keeps all its highlights. */
  lemma SplitKeepsOutside(frames: seq<Frame>, i: nat)
    requires i + 1 < |frames| && frames[i].tag.Mark?
    ensures BeforeRuns(LiftAt(frames, i)[i..]) == BeforeRuns(frames[i..])
    ensures AfterRuns(LiftAt(frames, i)[i..]) == AfterRuns(frames[i..])
  {
    hide AllRuns, Wrapped, Ids, BeforeRuns, AfterRuns;
    var outer := frames[i..];
    var lifted := LiftAt(frames, i)[i..];
    var mark, parent := outer[0], outer[1];
    var inner := outer[1..];
    assert inner[0] == parent && inner[1..] == outer[2..];
    assert lifted[1..] == outer[2..];
    FirstRuns(outer);
    FirstRuns(inner);
    FirstRuns(lifted);
    SplitKept(mark, parent, Ids(inner), BeforeRuns(outer[2..]), AfterRuns(outer[2..]));
  }

  lemma FirstRuns(frames: seq<Frame>)
    requires frames != []
    ensures Ids(frames) == Around(frames[0].tag, Ids(frames[1..]))
    ensures BeforeRuns(frames) == BeforeRuns(frames[1..]) + AllRuns(frames[0].before, Ids(frames))
    ensures AfterRuns(frames) == AllRuns(frames[0].after, Ids(frames)) + AfterRuns(frames[1..])
  {
  }

  // When the other text keeps all its highlights

  predicate HasText(doms: seq<Dom>) {
    AllRuns(doms, []) != []
  }

  /** Wherever there is other text, the marks around it come before any other element around it. */
  predicate MarksComeFirst(frames: seq<Frame>) {
    frames == []
    || ((HasText(frames[0].before) || HasText(frames[0].after) ==> KeptIds(frames) == Ids(frames)) && MarksComeFirst(frames[1..]))
  }

  lemma {:induction false} EmptyText(doms: seq<Dom>, a: seq<string>)
    ensures AllRuns(doms, a) == [] <==> !HasText(doms)
  {
    SameChars(doms, a, []);
  }

  lemma {:induction false} IdsShow(doms: seq<Dom>, a: seq<string>, b: seq<string>)
    requires HasText(doms) && AllRuns(doms, a) == AllRuns(doms, b)
    ensures a == b
    decreases doms
  {
    assert doms != [];
    var first := [doms[0]];
    assert doms == first + doms[1..];
    OneRuns(doms[0], a);
    OneRuns(doms[0], b);
    OneRuns(doms[0], []);
    SameChars(first, a, b);
    SameChars(first, a, []);
    assert Runs(doms[0], a) == AllRuns(doms, a)[..|Runs(doms[0], a)|];
    assert Runs(doms[0], b) == AllRuns(doms, b)[..|Runs(doms[0], b)|];
    if Runs(doms[0], []) == [] {
      assert AllRuns(doms[1..], a) == AllRuns(doms, a);
      assert AllRuns(doms[1..], b) == AllRuns(doms, b);
      assert AllRuns(doms[1..], []) == AllRuns(doms, []);
      IdsShow(doms[1..], a, b);
    } else {
      match doms[0] {
        case Text(text) =>
          assert Runs(doms[0], a)[0].ids == a && Runs(doms[0], b)[0].ids == b;
        case Element(tag, children) =>
          EmptyText(children, Around(tag, []));
          IdsShow(children, Around(tag, a), Around(tag, b));
          if tag.Mark? {
            assert a == (a + [tag.id])[..|a|] && b == (b + [tag.id])[..|b|];
          }
      }
    }
  }

  lemma {:induction false} KeepsAllIff(frames: seq<Frame>)
    ensures KeptBefore(frames) == BeforeRuns(frames) && KeptAfter(frames) == AfterRuns(frames) <==> MarksComeFirst(frames)
  {
    hide AllRuns, HasText;
    if frames != [] {
      var frame, rest := frames[0], frames[1..];
      var kept, ids := KeptIds(frames), Ids(frames);
      KeepsAllIff(rest);
      KeptSameChars(rest);
      SameChars(frame.before, kept, ids);
      SameChars(frame.after, kept, ids);
      EmptyText(frame.before, kept);
      EmptyText(frame.before, ids);
      EmptyText(frame.after, kept);
      EmptyText(frame.after, ids);
      ConcatSplits(KeptBefore(rest), AllRuns(frame.before, kept), BeforeRuns(rest), AllRuns(frame.before, ids));
      ConcatSplits(AllRuns(frame.after, kept), KeptAfter(rest), AllRuns(frame.after, ids), AfterRuns(rest));
      if HasText(frame.before) && AllRuns(frame.before, kept) == AllRuns(frame.before, ids) {
        IdsShow(frame.before, kept, ids);
      }
      if HasText(frame.after) && AllRuns(frame.after, kept) == AllRuns(frame.after, ids) {
        IdsShow(frame.after, kept, ids);
      }
    }
  }

  lemma ConcatSplits(a: seq<Run>, b: seq<Run>, c: seq<Run>, d: seq<Run>)
    requires |a| == |c| && |b| == |d|
    ensures a + b == c + d <==> a == c && b == d
  {
    assert a == (a + b)[..|a|] && b == (a + b)[|a|..];
    assert c == (c + d)[..|a|] && d == (c + d)[|a|..];
  }

  /** The text around the piece keeps all its highlights exactly when the marks come first wherever there is text. */
  lemma LiftingKeepsOtherHighlightsIff(frames: seq<Frame>)
    requires Rooted(frames)
    ensures var lifted := LiftAll(frames);
            BeforeRuns(lifted) == BeforeRuns(frames) && AfterRuns(lifted) == AfterRuns(frames) <==> MarksComeFirst(frames)
  {
    hide AllRuns, LiftAll, MarksComeFirst;
    LiftAllKeeps(frames);
    KeepsAllIff(frames);
  }

  /** It can fail: in `<p><mark><em>a PIECE</em></mark></p>` the text beside the piece loses the highlight with it. */
  lemma EmphasisLosesHighlight(id: string)
    ensures var frames := [Frame(Other("em"), [Text("a")], []), Frame(Mark(id), [], []), Frame(Other("p"), [], [])];
            var lifted := LiftAll(frames);
            Rooted(frames) && !(BeforeRuns(lifted) == BeforeRuns(frames) && AfterRuns(lifted) == AfterRuns(frames))
  {
    hide LiftAll;
    var frames := [Frame(Other("em"), [Text("a")], []), Frame(Mark(id), [], []), Frame(Other("p"), [], [])];
    assert frames[1..][0].tag == Mark(id);
    assert |Ids(frames)| == |Ids(frames[1..])| > 0;
    assert HasText(frames[0].before) by {
      OneRuns(Text("a"), []);
      TextRunsLength("a", []);
    }
    LiftingKeepsOtherHighlightsIff(frames);
  }

  // The piece itself

  /** The piece without the marks in it. */
  function Strip(doms: seq<Dom>): seq<Dom> {
    if doms == [] then [] else StripOne(doms[0]) + Strip(doms[1..])
  }

  function StripOne(dom: Dom): seq<Dom> {
    match dom
    case Text(_) => [dom]
    case Element(tag, children) => if tag.Mark? then Strip(children) else [Element(tag, Strip(children))]
  }

  /** Stripping keeps the text and leaves no highlight but those around. */
  lemma {:induction false} StripRuns(doms: seq<Dom>, ids: seq<string>)
    ensures Chars(AllRuns(Strip(doms), ids)) == Chars(AllRuns(doms, ids)) && OnlyIds(AllRuns(Strip(doms), ids), ids)
    decreases doms
  {
    hide StripOne, Runs;
    if doms != [] {
      StripOneRuns(doms[0], ids);
      StripRuns(doms[1..], ids);
      AllRunsConcat(StripOne(doms[0]), Strip(doms[1..]), ids);
      CharsConcat(AllRuns(StripOne(doms[0]), ids), AllRuns(Strip(doms[1..]), ids));
      CharsConcat(Runs(doms[0], ids), AllRuns(doms[1..], ids));
    }
  }

  predicate OnlyIds(runs: seq<Run>, ids: seq<string>) {
    forall i :: 0 <= i < |runs| ==> runs[i].ids == ids
  }

  lemma {:induction false} StripOneRuns(dom: Dom, ids: seq<string>)
    ensures Chars(AllRuns(StripOne(dom), ids)) == Chars(Runs(dom, ids)) && OnlyIds(AllRuns(StripOne(dom), ids), ids)
    decreases dom
  {
    hide Chars;
    match dom
    case Text(text) =>
      OneRuns(dom, ids);
      TextRunsIds(text, ids);
    case Element(tag, children) =>
      StripRuns(children, ids);
      SameChars(children, ids, Around(tag, ids));
      OneRuns(Element(tag, Strip(children)), ids);
  }

  lemma {:induction false} TextRunsIds(text: string, ids: seq<string>)
    ensures forall i :: 0 <= i < |TextRuns(text, ids)| ==> TextRuns(text, ids)[i].ids == ids
  {
    if text != "" {
      TextRunsIds(text[1..], ids);
    }
  }

  /** Taking the highlight off a piece: the document's text stays, and the piece is in no highlight at all. */
  lemma UnflashbackPreservesText(frames: seq<Frame>, pieces: seq<Dom>)
    requires Rooted(frames)
    ensures var before, after := AllRuns(Zip(frames, pieces), []), AllRuns(Zip(LiftAll(frames), Strip(pieces)), []);
            && Chars(after) == Chars(before)
            && after == KeptBefore(frames) + AllRuns(Strip(pieces), []) + KeptAfter(frames)
            && OnlyIds(AllRuns(Strip(pieces), []), [])
  {
    hide AllRuns, Zip, LiftAll, Chars, Strip;
    LiftingPreservesText(frames, pieces);
    LiftingPreservesText(frames, Strip(pieces));
    StripRuns(pieces, []);
    CharsConcat(KeptBefore(frames) + AllRuns(pieces, []), KeptAfter(frames));
    CharsConcat(KeptBefore(frames), AllRuns(pieces, []));
    CharsConcat(KeptBefore(frames) + AllRuns(Strip(pieces), []), KeptAfter(frames));
    CharsConcat(KeptBefore(frames), AllRuns(Strip(pieces), []));
  }
}

/**
 * The render output buffer of the UI framework's RenderManager, reduced to the
 * writes the select-list renderer makes, and the vocabulary used to state
 * properties of what was written: tag nesting and item placements.
 */
module RenderOutput {
  import opened Wrappers

  /** Identity of one item control (an IconTabFilter shown in the list). */
  type ItemId = int

  /** One write into the render buffer. */
  datatype Event =
      /** `<ul role="menu" class="sapMITBSelectList">`, with the text-only class iff `textOnly` */
    | OpenUl(textOnly: bool)
      /** `oItem.renderInSelectList(oRM, oSelectList, iIndexInSet, iSetSize, fPaddingLeft)` */
    | ListItem(item: ItemId, indexInSet: Option<int>, setSize: int, paddingLeft: real)
      /** `<li>` wrapping a nested list */
    | OpenLi
    | CloseLi
    | CloseUl

  /** The output buffer; each write appends one event. */
  class RenderManager {
    var events: seq<Event>

    constructor ()
      ensures events == []
    {
      events := [];
    }

    method Write(e: Event)
      modifies this
      ensures events == old(events) + [e]
    {
      events := events + [e];
    }
  }

  /**
   * Proof helper: writing an open event, a run and a close event appends the
   * wrapped run (regrouping of `+`, stated once for the renderer's proofs).
   */
  lemma AppendWrapped(prefix: seq<Event>, open: Event, inner: seq<Event>, close: Event)
    ensures prefix + [open] + inner + [close] == prefix + ([open] + inner + [close])
  {
  }

  // ---------------------------------------------------------------------------
  // Nesting of the written markup

  datatype Tag = UlTag | LiTag

  /**
   * The open elements after one more write, or None when the write is out of
   * place: a `ul` opens at the outside or directly inside an `li`; items and
   * `li` wrappers sit directly inside a `ul`; each close matches the innermost
   * open element.
   */
  function Step(open: seq<Tag>, e: Event): Option<seq<Tag>>
  {
    var top := if open == [] then None else Some(open[|open| - 1]);
    match e
    case OpenUl(_) =>
      if top == None || top == Some(LiTag) then Some(open + [UlTag]) else None
    case ListItem(_, _, _, _) =>
      if top == Some(UlTag) then Some(open) else None
    case OpenLi =>
      if top == Some(UlTag) then Some(open + [LiTag]) else None
    case CloseLi =>
      if top == Some(LiTag) then Some(open[..|open| - 1]) else None
    case CloseUl =>
      if top == Some(UlTag) then Some(open[..|open| - 1]) else None
  }

  /** The open elements after a run of writes, or None if one is out of place. */
  function Parse(open: seq<Tag>, events: seq<Event>): Option<seq<Tag>>
    decreases |events|
  {
    if |events| == 0 then Some(open)
    else match Step(open, events[0])
      case None => None
      case Some(next) => Parse(next, events[1..])
  }

  /** Every element the writes open they also close, in the right order. */
  predicate WellNested(events: seq<Event>)
  {
    Parse([], events) == Some([])
  }

  lemma ParseSingle(open: seq<Tag>, e: Event)
    ensures Parse(open, [e]) == Step(open, e)
  {
    assert [e][1..] == [];
  }

  /**
   * Every prefix of the writes is in place when made with `base` open, and
   * none of them closes an element of `base`.
   */
  predicate Within(base: seq<Tag>, events: seq<Event>)
  {
    forall k :: 0 <= k <= |events| ==>
      Parse(base, events[..k]).Some? && base <= Parse(base, events[..k]).value
  }

  /**
   * Every proper, non-empty prefix of the writes leaves `base + [tag]` open:
   * the element the first write opens stays open until the last write.
   */
  predicate Wrapped(base: seq<Tag>, tag: Tag, events: seq<Event>)
  {
    forall k :: 0 < k < |events| ==>
      Parse(base, events[..k]).Some? && base + [tag] <= Parse(base, events[..k]).value
  }

  /**
   * Writes that enter a `ul` or `li`, stay balanced inside it and leave it
   * again are balanced as a whole, and that element stays open in between.
   */
  lemma Enclosed(open: seq<Tag>, tag: Tag, first: Event, inner: seq<Event>, last: Event)
    requires Step(open, first) == Some(open + [tag])
    requires Parse(open + [tag], inner) == Some(open + [tag]) && Within(open + [tag], inner)
    requires Step(open + [tag], last) == Some(open)
    ensures Parse(open, [first] + inner + [last]) == Some(open)
    ensures Wrapped(open, tag, [first] + inner + [last])
  {
    ParseSingle(open, first);
    ParseSingle(open + [tag], last);
    ParseAppend(open, [first], inner);
    ParseAppend(open, [first] + inner, [last]);
    EnclosedPrefixes(open, tag, first, inner, last);
  }

  lemma EnclosedPrefixes(open: seq<Tag>, tag: Tag, first: Event, inner: seq<Event>, last: Event)
    requires Step(open, first) == Some(open + [tag])
    requires Within(open + [tag], inner)
    ensures Wrapped(open, tag, [first] + inner + [last])
  {
    var w := [first] + inner + [last];
    ParseSingle(open, first);
    forall k | 0 < k < |w|
      ensures Parse(open, w[..k]).Some? && open + [tag] <= Parse(open, w[..k]).value
    {
      assert w[..k] == [first] + inner[..k - 1];
      ParseAppend(open, [first], inner[..k - 1]);
    }
  }

  /** Balanced writes that keep an element open throughout stay within the start. */
  lemma WrappedWithin(base: seq<Tag>, tag: Tag, events: seq<Event>)
    requires Wrapped(base, tag, events) && Parse(base, events) == Some(base)
    ensures Within(base, events)
  {
    forall k | 0 <= k <= |events|
      ensures Parse(base, events[..k]).Some? && base <= Parse(base, events[..k]).value
    {
      if k == 0 {
        assert events[..k] == [];
      } else if k == |events| {
        assert events[..k] == events;
      } else {
        var s := Parse(base, events[..k]).value;
        assert base + [tag] <= s;
        assert s[..|base|] == (base + [tag])[..|base|] == base;
      }
    }
  }

  /** Balanced writes that stay within the start, followed by more such writes. */
  lemma WithinAppend(base: seq<Tag>, a: seq<Event>, b: seq<Event>)
    requires Within(base, a) && Parse(base, a) == Some(base) && Within(base, b)
    ensures Within(base, a + b)
  {
    forall k | 0 <= k <= |a + b|
      ensures Parse(base, (a + b)[..k]).Some? && base <= Parse(base, (a + b)[..k]).value
    {
      if k <= |a| {
        assert (a + b)[..k] == a[..k];
      } else {
        assert (a + b)[..k] == a + b[..k - |a|];
        ParseAppend(base, a, b[..k - |a|]);
      }
    }
  }

  /** A write that opens and closes nothing. */
  lemma StepWithin(base: seq<Tag>, e: Event)
    requires Step(base, e) == Some(base)
    ensures Parse(base, [e]) == Some(base) && Within(base, [e])
  {
    ParseSingle(base, e);
    assert [e][..0] == [];
    assert [e][..1] == [e];
  }

  /** Writing nothing. */
  lemma EmptyWithin(base: seq<Tag>, events: seq<Event>)
    requires |events| == 0
    ensures Parse(base, events) == Some(base) && Within(base, events)
  {
    assert events[..0] == events;
  }

  lemma {:induction false} ParseAppend(open: seq<Tag>, a: seq<Event>, b: seq<Event>)
    ensures Parse(open, a + b) ==
              match Parse(open, a)
              case None => None
              case Some(mid) => Parse(mid, b)
    decreases |a|
  {
    if a == [] {
      assert a + b == b;
    } else {
      assert (a + b)[0] == a[0];
      assert (a + b)[1..] == a[1..] + b;
      match Step(open, a[0])
      case None =>
      case Some(next) => ParseAppend(next, a[1..], b);
    }
  }

  // ---------------------------------------------------------------------------
  // What was written, projected

  /** The item and left padding of every `ListItem` write, in order. */
  function Placements(events: seq<Event>): seq<(ItemId, real)>
  {
    if |events| == 0 then []
    else
      (if events[0].ListItem? then [(events[0].item, events[0].paddingLeft)] else [])
      + Placements(events[1..])
  }

  lemma {:induction false} PlacementsAppend(a: seq<Event>, b: seq<Event>)
    ensures Placements(a + b) == Placements(a) + Placements(b)
  {
    if a == [] {
      assert a + b == b;
    } else {
      assert (a + b)[0] == a[0];
      assert (a + b)[1..] == a[1..] + b;
      PlacementsAppend(a[1..], b);
    }
  }

  /** The number of `li` wrappers opened. */
  function CountOpenLi(events: seq<Event>): nat
  {
    if |events| == 0 then 0
    else (if events[0].OpenLi? then 1 else 0) + CountOpenLi(events[1..])
  }

  lemma {:induction false} CountOpenLiAppend(a: seq<Event>, b: seq<Event>)
    ensures CountOpenLi(a + b) == CountOpenLi(a) + CountOpenLi(b)
  {
    if a == [] {
      assert a + b == b;
    } else {
      assert (a + b)[0] == a[0];
      assert (a + b)[1..] == a[1..] + b;
      CountOpenLiAppend(a[1..], b);
    }
  }

  /** Every `ul` written carries the text-only class exactly when `textOnly` holds. */
  predicate UlsMarked(events: seq<Event>, textOnly: bool)
  {
    forall k :: 0 <= k < |events| && events[k].OpenUl? ==> events[k].textOnly == textOnly
  }

  lemma UlsMarkedAppend(a: seq<Event>, b: seq<Event>, textOnly: bool)
    requires UlsMarked(a, textOnly) && UlsMarked(b, textOnly)
    ensures UlsMarked(a + b, textOnly)
  {
    forall k | 0 <= k < |a + b| && (a + b)[k].OpenUl?
      ensures (a + b)[k].textOnly == textOnly
    {
      if k < |a| {
        assert (a + b)[k] == a[k];
      } else {
        assert (a + b)[k] == b[k - |a|];
      }
    }
  }
}

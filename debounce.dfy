/**
 * The body of the live poller loop (`while ctx.state.playing`), as a state
 * machine over what it leaves behind. Each iteration reads the shared label
 * slot; a label that is present and non-empty is written to the live
 * display and, when audio feedback is on and the label differs from the last
 * one announced, it is announced (the browser speech call, here an event in a
 * trace) and remembered as the last announced. The remembered value is kept
 * in the UI session's storage under "_last_live".
 */
module Debounce {
  import opened Wrappers

  /** The display text, the last announced label, and every announcement so far, in order. */
  datatype PollerView = PollerView(display: Option<string>, lastLive: Option<string>, spoken: seq<string>)

  /** Python's truthiness of the value read from the slot (`if name_v:`): present and non-empty. */
  predicate Present(read: Option<string>) {
    read.Some? && read.value != []
  }

  /** The text written to the live display for a label. */
  function LiveText(name: string): string {
    "Live: " + name
  }

  /** One iteration of the poller loop, given the label read from the shared slot. */
  function PollStep(v: PollerView, read: Option<string>, audio: bool): PollerView {
    if !Present(read) then v
    else
      var shown := v.(display := Some(LiveText(read.value)));
      if audio && v.lastLive != read then shown.(lastLive := read, spoken := v.spoken + [read.value])
      else shown
  }

  /** An absent or empty label changes nothing: no display, no announcement, same last announced. */
  lemma PollAbsentUnchanged(v: PollerView, read: Option<string>, audio: bool)
    requires !Present(read)
    ensures PollStep(v, read, audio) == v
  {
  }

  /**
   * With audio on and a present label, one announcement is made exactly when the
   * label differs from the last announced one, and that announcement is the label;
   * afterwards the label is the last announced.
   */
  lemma PollAnnouncesIffChanged(v: PollerView, read: Option<string>)
    requires Present(read)
    ensures var w := PollStep(v, read, true);
      && w.lastLive == read
      && w.display == Some(LiveText(read.value))
      && (read != v.lastLive ==> w.spoken == v.spoken + [read.value])
      && (read == v.lastLive ==> w.spoken == v.spoken)
  {
  }

  /** With audio off, nothing is announced and the last announced value is untouched. */
  lemma PollAudioOffSilent(v: PollerView, read: Option<string>)
    ensures PollStep(v, read, false).spoken == v.spoken
    ensures PollStep(v, read, false).lastLive == v.lastLive
  {
  }

  /** Reading the same label again right away changes nothing more: a repeat never re-announces. */
  lemma PollIdempotent(v: PollerView, read: Option<string>, audio: bool)
    ensures PollStep(PollStep(v, read, audio), read, audio) == PollStep(v, read, audio)
  {
  }

  /** The poller loop run over the values it reads from the slot, in order. */
  function PollTrace(v: PollerView, polled: seq<Option<string>>, audio: bool): PollerView {
    if polled == [] then v
    else PollStep(PollTrace(v, polled[..|polled| - 1], audio), polled[|polled| - 1], audio)
  }

  /** The polled values that count: present, non-empty labels, in order. */
  function PresentLabels(polled: seq<Option<string>>): (labels: seq<string>)
    ensures |labels| <= |polled|
    ensures forall k :: 0 <= k < |labels| ==> labels[k] != []
  {
    if polled == [] then []
    else
      var init := PresentLabels(polled[..|polled| - 1]);
      var last := polled[|polled| - 1];
      if Present(last) then init + [last.value] else init
  }

  /** The last element of `xs`, or `before` when `xs` is empty. */
  function LastOr(before: Option<string>, xs: seq<string>): Option<string> {
    if xs == [] then before else Some(xs[|xs| - 1])
  }

  /**
   * Reference definition of "announce each change": the elements of `xs` that differ
   * from the element before them, the first one compared with `before`. The result
   * has no two equal neighbours, its first element differs from `before`, and it ends
   * where `xs` ends.
   */
  function Changes(before: Option<string>, xs: seq<string>): (r: seq<string>)
    ensures |r| <= |xs|
    ensures LastOr(before, r) == LastOr(before, xs)
    ensures r != [] ==> Some(r[0]) != before
    ensures forall k :: 0 < k < |r| ==> r[k - 1] != r[k]
  {
    if xs == [] then []
    else
      var init := xs[..|xs| - 1];
      var x := xs[|xs| - 1];
      if Some(x) != LastOr(before, init) then Changes(before, init) + [x] else Changes(before, init)
  }

  /**
   * The debounce rule over a whole run with audio on: the announcements made are
   * exactly the changes of consecutive present label, and the last announced value
   * is the last present label read (or what it was before, if none was read).
   */
  lemma {:induction false} DebounceAnnouncesChanges(v: PollerView, polled: seq<Option<string>>)
    ensures PollTrace(v, polled, true).spoken == v.spoken + Changes(v.lastLive, PresentLabels(polled))
    ensures PollTrace(v, polled, true).lastLive == LastOr(v.lastLive, PresentLabels(polled))
  {
    if polled != [] {
      var init := polled[..|polled| - 1];
      var read := polled[|polled| - 1];
      DebounceAnnouncesChanges(v, init);
      var w := PollTrace(v, init, true);
      assert PollTrace(v, polled, true) == PollStep(w, read, true);
      var xs := PresentLabels(init);
      if Present(read) {
        var ys := xs + [read.value];
        assert PresentLabels(polled) == ys;
        assert ys[..|ys| - 1] == xs;
        assert Changes(v.lastLive, ys) ==
          Changes(v.lastLive, xs) + (if Some(read.value) != LastOr(v.lastLive, xs) then [read.value] else []);
      } else {
        assert PresentLabels(polled) == xs;
      }
    }
  }

  /** With audio off, a whole run announces nothing and leaves the last announced value alone. */
  lemma {:induction false} SilentRunWithoutAudio(v: PollerView, polled: seq<Option<string>>)
    ensures PollTrace(v, polled, false).spoken == v.spoken
    ensures PollTrace(v, polled, false).lastLive == v.lastLive
  {
    if polled != [] {
      SilentRunWithoutAudio(v, polled[..|polled| - 1]);
    }
  }

  /** After a run, the display shows the last present label read, or what it showed before. */
  lemma {:induction false} DisplayShowsLatest(v: PollerView, polled: seq<Option<string>>, audio: bool)
    ensures PollTrace(v, polled, audio).display ==
      match LastOr(None, PresentLabels(polled))
      case None => v.display
      case Some(name) => Some(LiveText(name))
  {
    if polled != [] {
      DisplayShowsLatest(v, polled[..|polled| - 1], audio);
    }
  }

  /** The present labels of an all-present run are its labels. */
  lemma {:induction false} PresentLabelsOfPresent(xs: seq<string>)
    requires forall k :: 0 <= k < |xs| ==> xs[k] != []
    ensures PresentLabels(seq(|xs|, k requires 0 <= k < |xs| => Some(xs[k]))) == xs
  {
    var polled := seq(|xs|, k requires 0 <= k < |xs| => Some(xs[k]));
    if xs != [] {
      var init := xs[..|xs| - 1];
      PresentLabelsOfPresent(init);
      assert polled[..|polled| - 1] == seq(|init|, k requires 0 <= k < |init| => Some(init[k]));
    }
  }

  /** The changes of A, A, A, B, B, A are A, B, A. */
  lemma ChangesOfExample(a: string, b: string)
    requires a != b
    ensures Changes(None, [a, a, a, b, b, a]) == [a, b, a]
  {
    var xs := [a, a, a, b, b, a];
    assert Changes(None, xs[..1]) == [a] by { assert xs[..1][..0] == []; }
    assert Changes(None, xs[..2]) == [a] by { assert xs[..2][..1] == xs[..1]; }
    assert Changes(None, xs[..3]) == [a] by { assert xs[..3][..2] == xs[..2]; }
    assert Changes(None, xs[..4]) == [a, b] by { assert xs[..4][..3] == xs[..3]; }
    assert Changes(None, xs[..5]) == [a, b] by { assert xs[..5][..4] == xs[..4]; }
    assert xs[..5] == xs[..|xs| - 1];
  }

  /**
   * The run A, A, A, B, B, A from a fresh poller announces exactly three times:
   * at the first A, at the first B, and at the A that follows the Bs.
   */
  lemma ThreeAnnouncements(a: string, b: string)
    requires a != [] && b != [] && a != b
    ensures PollTrace(PollerView(None, None, []), [Some(a), Some(a), Some(a), Some(b), Some(b), Some(a)], true).spoken == [a, b, a]
  {
    var xs := [a, a, a, b, b, a];
    var polled := [Some(a), Some(a), Some(a), Some(b), Some(b), Some(a)];
    PresentLabelsOfPresent(xs);
    assert seq(|xs|, k requires 0 <= k < |xs| => Some(xs[k])) == polled;
    DebounceAnnouncesChanges(PollerView(None, None, []), polled);
    ChangesOfExample(a, b);
  }
}

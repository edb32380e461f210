/**
 * The live-video pipeline of app.py. A frame callback, run by the video
 * source on its own thread, classifies each frame and, under a lock,
 * overwrites the shared "label" slot and (when recording) appends a copy of
 * the frame's image to the shared "frames" list. The page's poller loop reads
 * the slot under the same lock and drives the display and the audio
 * announcements. Once the stream stops, the recorded frames can be exported as
 * a looped image.
 *
 * Each locked section is one atomic step here; a session is a sequence of such
 * steps, callback invocations and poller iterations in the order the lock
 * admitted them. Frames and images are opaque values. The model (preprocessing,
 * `predict` and `argmax`) is an opaque function from an image to a class index,
 * absent when the model failed to load.
 */
module LiveVideo {
  import opened Wrappers
  import Labels
  import Naming
  import Debounce

  /** What stays fixed during one stream: the model, the label table, the page's toggles. */
  datatype Config<-Frame, !Image> = Config(
    classifier: Option<Image -> nat>,
    labels: Option<seq<string>>,
    toImage: Frame -> Image,
    recordEnabled: bool,
    audioEnabled: bool)

  /** The shared slot and frame list, and what the poller loop has done. */
  datatype SessionState<Image> = SessionState(liveLabel: Option<string>, frames: seq<Image>, poller: Debounce.PollerView)

  /** One atomic step: a callback invocation on an arriving frame, or one poller iteration. */
  datatype Event<Frame> = FrameArrived(frame: Frame) | Poll

  /** The state change made by the frame callback. */
  function Ingest<Frame, Image>(cfg: Config<Frame, Image>, s: SessionState<Image>, frame: Frame): SessionState<Image> {
    match cfg.classifier
    case None => s
    case Some(classify) =>
      var img := cfg.toImage(frame);
      var name := Naming.ResolveName(cfg.labels, classify(img));
      s.(liveLabel := Some(name), frames := if cfg.recordEnabled then s.frames + [img] else s.frames)
  }

  /** The state change made by one poller iteration: it reads the slot and acts on it. */
  function PollShared<Frame, Image>(cfg: Config<Frame, Image>, s: SessionState<Image>): SessionState<Image> {
    s.(poller := Debounce.PollStep(s.poller, s.liveLabel, cfg.audioEnabled))
  }

  function Step<Frame, Image>(cfg: Config<Frame, Image>, s: SessionState<Image>, e: Event<Frame>): SessionState<Image> {
    match e
    case FrameArrived(frame) => Ingest(cfg, s, frame)
    case Poll => PollShared(cfg, s)
  }

  /** The state after a sequence of steps. */
  function Replay<Frame, Image>(cfg: Config<Frame, Image>, s: SessionState<Image>, events: seq<Event<Frame>>): SessionState<Image> {
    if events == [] then s
    else Step(cfg, Replay(cfg, s, events[..|events| - 1]), events[|events| - 1])
  }

  /** The frames that arrived, in order. */
  function FramesOf<Frame>(events: seq<Event<Frame>>): (frames: seq<Frame>)
    ensures |frames| <= |events|
  {
    if events == [] then []
    else
      var init := FramesOf(events[..|events| - 1]);
      match events[|events| - 1]
      case FrameArrived(frame) => init + [frame]
      case Poll => init
  }

  /** The value each poller iteration reads from the label slot, in order. */
  function PolledLabels<Frame, Image>(cfg: Config<Frame, Image>, s: SessionState<Image>, events: seq<Event<Frame>>): (polled: seq<Option<string>>)
    ensures |polled| <= |events|
  {
    if events == [] then []
    else
      var init := events[..|events| - 1];
      var prev := PolledLabels(cfg, s, init);
      if events[|events| - 1].Poll? then prev + [Replay(cfg, s, init).liveLabel] else prev
  }

  /** `f` applied to each element, order kept. */
  function MapImages<A, B>(f: A -> B, xs: seq<A>): (ys: seq<B>)
    ensures |ys| == |xs| && forall k :: 0 <= k < |xs| ==> ys[k] == f(xs[k])
  {
    seq(|xs|, k requires 0 <= k < |xs| => f(xs[k]))
  }

  /**
   * The frame list is append-only: after any steps it is the old list followed by the
   * images of the frames that arrived, in arrival order, when a model is loaded and
   * recording is on; otherwise it is the old list.
   */
  lemma {:induction false} ReplayFrames<Frame, Image>(cfg: Config<Frame, Image>, s: SessionState<Image>, events: seq<Event<Frame>>)
    ensures Replay(cfg, s, events).frames ==
      s.frames + (if cfg.classifier.Some? && cfg.recordEnabled then MapImages(cfg.toImage, FramesOf(events)) else [])
  {
    if events != [] {
      var init := events[..|events| - 1];
      ReplayFrames(cfg, s, init);
      if cfg.classifier.Some? && cfg.recordEnabled {
        var fs := FramesOf(init);
        match events[|events| - 1]
        case FrameArrived(frame) =>
          assert MapImages(cfg.toImage, fs + [frame]) == MapImages(cfg.toImage, fs) + [cfg.toImage(frame)];
        case Poll =>
      }
    }
  }

  /**
   * The label slot holds the name resolved for the last frame that arrived, and
   * nothing newer: with no model, or before any frame, it keeps its old value.
   */
  lemma {:induction false} ReplayLabel<Frame, Image>(cfg: Config<Frame, Image>, s: SessionState<Image>, events: seq<Event<Frame>>)
    ensures var fs := FramesOf(events);
      Replay(cfg, s, events).liveLabel ==
        if cfg.classifier.None? || fs == [] then s.liveLabel
        else Some(Naming.ResolveName(cfg.labels, cfg.classifier.value(cfg.toImage(fs[|fs| - 1]))))
  {
    if events != [] {
      ReplayLabel(cfg, s, events[..|events| - 1]);
    }
  }

  /** The poller's part of a session is the poller loop run over the labels it read. */
  lemma {:induction false} ReplayPoller<Frame, Image>(cfg: Config<Frame, Image>, s: SessionState<Image>, events: seq<Event<Frame>>)
    ensures Replay(cfg, s, events).poller == Debounce.PollTrace(s.poller, PolledLabels(cfg, s, events), cfg.audioEnabled)
  {
    if events != [] {
      var init := events[..|events| - 1];
      ReplayPoller(cfg, s, init);
      var prev := PolledLabels(cfg, s, init);
      if events[|events| - 1].Poll? {
        assert (prev + [Replay(cfg, s, init).liveLabel])[..|prev|] == prev;
      }
    }
  }

  /**
   * With no model, a session that starts with an empty slot keeps it empty and the
   * frame list unchanged, every poll reads nothing, and so nothing is shown or announced.
   */
  lemma {:induction false} NoModelNoAnnouncement<Frame, Image>(cfg: Config<Frame, Image>, s: SessionState<Image>, events: seq<Event<Frame>>)
    requires cfg.classifier.None? && s.liveLabel.None?
    ensures Replay(cfg, s, events) == s
  {
    ReplayLabel(cfg, s, events);
    ReplayFrames(cfg, s, events);
    ReplayPoller(cfg, s, events);
    NoModelPollsNothing(cfg, s, events);
    NothingPolledNoChange(s.poller, PolledLabels(cfg, s, events), cfg.audioEnabled);
  }

  /** With no model and an empty slot to start with, every poller iteration reads nothing. */
  lemma {:induction false} NoModelPollsNothing<Frame, Image>(cfg: Config<Frame, Image>, s: SessionState<Image>, events: seq<Event<Frame>>)
    requires cfg.classifier.None? && s.liveLabel.None?
    ensures forall k :: 0 <= k < |PolledLabels(cfg, s, events)| ==> PolledLabels(cfg, s, events)[k].None?
  {
    if events != [] {
      var init := events[..|events| - 1];
      NoModelPollsNothing(cfg, s, init);
      ReplayLabel(cfg, s, init);
    }
  }

  /** A poller loop that reads nothing but absent values leaves its state as it was. */
  lemma {:induction false} NothingPolledNoChange(v: Debounce.PollerView, polled: seq<Option<string>>, audio: bool)
    requires forall k :: 0 <= k < |polled| ==> polled[k].None?
    ensures Debounce.PollTrace(v, polled, audio) == v
  {
    if polled != [] {
      NothingPolledNoChange(v, polled[..|polled| - 1], audio);
    }
  }

  /**
   * One stream: the shared slot and frame list of app.py, the page's poller
   * state, and the fixed configuration of the page run.
   */
  class Session<Frame, Image> {
    const classifier: Option<Image -> nat>
    const labels: Option<seq<string>>
    const toImage: Frame -> Image
    const recordEnabled: bool
    const audioEnabled: bool

    var liveLabel: Option<string>   // shared["label"]
    var frames: seq<Image>          // shared["frames"]
    var display: Option<string>     // the live label's text
    var lastLive: Option<string>    // st.session_state["_last_live"]
    var spoken: seq<string>         // announcements made, in order

    function Cfg(): Config<Frame, Image> {
      Config(classifier, labels, toImage, recordEnabled, audioEnabled)
    }

    function State(): SessionState<Image>
      reads this
    {
      SessionState(liveLabel, frames, Debounce.PollerView(display, lastLive, spoken))
    }

    /**
     * The table came from `load_labels`, so no entry is empty; the slot holds a label
     * only once a model has produced one, and that label is never empty; frames are
     * recorded only with a model and with recording on.
     */
    ghost predicate Valid()
      reads this
    {
      && (labels.Some? ==> Labels.AllNonEmpty(labels.value))
      && (liveLabel.Some? ==> classifier.Some? && liveLabel.value != [])
      && (frames != [] ==> classifier.Some? && recordEnabled)
    }

    /**
     * A page run: the label table is loaded from the label file's lines (None when
     * the file does not exist), the slot is empty and no frame is recorded. The last
     * announced label is read from the UI session's storage and so is whatever an
     * earlier stream in the same browser session left there.
     */
    constructor(classifier: Option<Image -> nat>, labelFile: Option<seq<string>>, toImage: Frame -> Image,
                recordEnabled: bool, audioEnabled: bool, carriedLastLive: Option<string>)
      ensures Valid()
      ensures this.classifier == classifier && this.toImage == toImage
      ensures this.recordEnabled == recordEnabled && this.audioEnabled == audioEnabled
      ensures labels == Labels.LoadLabels(labelFile)
      ensures State() == SessionState(None, [], Debounce.PollerView(None, carriedLastLive, []))
    {
      this.classifier := classifier;
      this.labels := Labels.LoadLabels(labelFile);
      this.toImage := toImage;
      this.recordEnabled := recordEnabled;
      this.audioEnabled := audioEnabled;
      liveLabel := None;
      frames := [];
      display := None;
      lastLive := carriedLastLive;
      spoken := [];
    }

    /**
     * `video_frame_callback`: the frame is returned unchanged. With a model, the slot
     * is overwritten with the resolved name and, when recording, the frame's image is
     * appended; without one nothing changes. The poller's state is never touched.
     */
    method OnFrame(frame: Frame) returns (out: Frame)
      requires Valid()
      modifies this
      ensures Valid()
      ensures out == frame
      ensures State() == Ingest(Cfg(), old(State()), frame)
      ensures old(frames) <= frames
      ensures |frames| == |old(frames)| + (if classifier.Some? && recordEnabled then 1 else 0)
    {
      var img := toImage(frame);
      if classifier.Some? {
        var idx := classifier.value(img);
        var name := Naming.ResolveName(labels, idx);
        Naming.ResolvedNameNonEmpty(labels, idx);
        liveLabel := Some(name);
        if recordEnabled {
          frames := frames + [img];
        }
      }
      out := frame;
    }

    /**
     * One iteration of the poller loop: read the slot; if it holds a non-empty label,
     * show it, and with audio on announce it if it is not the last one announced.
     */
    method PollOnce()
      requires Valid()
      modifies this`display, this`lastLive, this`spoken
      ensures Valid()
      ensures State() == PollShared(Cfg(), old(State()))
    {
      var name := liveLabel;
      if name.Some? && name.value != [] {
        display := Some(Debounce.LiveText(name.value));
        if audioEnabled {
          if lastLive != name {
            spoken := spoken + [name.value];
            lastLive := name;
          }
        }
      }
    }

    /**
     * A whole stream, as the sequence of atomic steps the lock admitted: every frame is
     * forwarded unchanged and in order, and the state is that of the steps replayed.
     */
    method RunSession(events: seq<Event<Frame>>) returns (forwarded: seq<Frame>)
      requires Valid()
      modifies this
      ensures Valid()
      ensures forwarded == FramesOf(events)
      ensures State() == Replay(Cfg(), old(State()), events)
    {
      forwarded := [];
      var i := 0;
      while i < |events|
        invariant 0 <= i <= |events|
        invariant Valid()
        invariant forwarded == FramesOf(events[..i])
        invariant State() == Replay(Cfg(), old(State()), events[..i])
      {
        assert events[..i + 1][..i] == events[..i];
        match events[i] {
          case FrameArrived(frame) =>
            var out := OnFrame(frame);
            forwarded := forwarded + [out];
          case Poll =>
            PollOnce();
        }
        i := i + 1;
      }
      assert events[..|events|] == events;
    }

    /**
     * The export offered after the stream stops: available exactly when recording is on
     * and frames were recorded, and then it is every recorded frame passed through
     * `resize` (to the output size of the looped image), in recording order. Frames are
     * recorded only with a model, so there is nothing to export without one.
     */
    method ExportFrames(resize: Image -> Image) returns (gif: Option<seq<Image>>)
      requires Valid()
      ensures gif.Some? <==> recordEnabled && frames != []
      ensures gif.Some? ==> classifier.Some?
      ensures gif.Some? ==> |gif.value| == |frames| && forall k :: 0 <= k < |frames| ==> gif.value[k] == resize(frames[k])
    {
      if recordEnabled && frames != [] {
        gif := Some(MapImages(resize, frames));
      } else {
        gif := None;
      }
    }
  }
}

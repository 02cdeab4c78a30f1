/** The speech player of the conversations screen as a state machine: a
    wavesurfer instance created once, when the player is visible and has a
    source; three engine listeners that drive the playing, duration and
    initialized fields; a play/pause toggle; and a cleanup that unbinds every
    listener before destroying the instance. */
module SpeechPlayback {
  import opened Wrappers

  /** The engine events the player listens to. */
  datatype Event = Play | Pause | Decode

  /** A bound listener, as the unsubscribe function `on` returns for it. */
  type Handle = nat

  /** The listener table left after calling the unsubscribe functions of
      `subs` in order, as `subscriptions.forEach((unsub) => unsub())` does. */
  function UnbindAll(listeners: map<Handle, Event>, subs: seq<Handle>): (r: map<Handle, Event>)
    ensures forall h :: h in r <==> h in listeners && h !in subs
    ensures forall h :: h in r ==> r[h] == listeners[h]
  {
    if subs == [] then listeners
    else UnbindAll(listeners, subs[..|subs| - 1]) - {subs[|subs| - 1]}
  }

  /** Unsubscribing every handle of a table leaves no live listener. */
  lemma UnbindAllClears(listeners: map<Handle, Event>, subs: seq<Handle>)
    requires forall h :: h in listeners ==> h in subs
    ensures UnbindAll(listeners, subs) == map[]
  {
    var r := UnbindAll(listeners, subs);
    assert r.Keys == {};
  }

  /** The listeners the subscription effect binds on a fresh instance:
      play, pause and decode, in that order. */
  const BOUND: map<Handle, Event> := map[0 := Play, 1 := Pause, 2 := Decode]
  const HANDLES: seq<Handle> := [0, 1, 2]

  /** `speech?.src` is truthy: present and not empty. */
  predicate HasSrc(src: Option<string>)
  {
    src.Some? && src.value != ""
  }

  /** The wavesurfer instance, abstracted to its playing flag, its table of
      live listeners, the numbers of bind and unbind calls, and whether it has
      been destroyed. */
  class WaveSurfer {
    const url: string
    var playing: bool
    var listeners: map<Handle, Event>
    var binds: nat
    var unbinds: nat
    var destroyed: bool

    /** Every live handle was handed out by an earlier bind. */
    ghost predicate Valid()
      reads this
    {
      forall h :: h in listeners ==> h < binds
    }

    /** `WaveSurfer.create({ url, ... })`. */
    constructor Create(url: string)
      ensures Valid()
      ensures this.url == url && !playing && listeners == map[]
      ensures binds == 0 && unbinds == 0 && !destroyed
    {
      this.url := url;
      playing := false;
      listeners := map[];
      binds, unbinds := 0, 0;
      destroyed := false;
    }

    /** `on(event, listener)`: binds a listener and returns its handle. */
    method On(e: Event) returns (h: Handle)
      requires Valid()
      modifies this
      ensures Valid()
      ensures h == old(binds) && h !in old(listeners)
      ensures listeners == old(listeners)[h := e] && binds == old(binds) + 1
      ensures playing == old(playing) && unbinds == old(unbinds) && destroyed == old(destroyed)
    {
      h := binds;
      listeners := listeners[h := e];
      binds := binds + 1;
    }

    /** Calling the unsubscribe function of a handle. */
    method Unsubscribe(h: Handle)
      requires Valid()
      modifies this
      ensures Valid()
      ensures listeners == old(listeners) - {h} && unbinds == old(unbinds) + 1
      ensures playing == old(playing) && binds == old(binds) && destroyed == old(destroyed)
    {
      listeners := listeners - {h};
      unbinds := unbinds + 1;
    }

    /** `play()`. */
    method StartPlayback()
      modifies this
      ensures playing
      ensures listeners == old(listeners) && binds == old(binds) && unbinds == old(unbinds)
      ensures destroyed == old(destroyed)
    {
      playing := true;
    }

    /** `pause()`. */
    method PausePlayback()
      modifies this
      ensures !playing
      ensures listeners == old(listeners) && binds == old(binds) && unbinds == old(unbinds)
      ensures destroyed == old(destroyed)
    {
      playing := false;
    }

    /** `destroy()`. */
    method Destroy()
      modifies this
      ensures destroyed
      ensures playing == old(playing) && listeners == old(listeners)
      ensures binds == old(binds) && unbinds == old(unbinds)
    {
      destroyed := true;
    }
  }

  /** The component's state: its wavesurfer instance (at most one), the
      playing, initialized and duration state, and the subscription list. */
  class SpeechPlayer {
    var wavesurfer: WaveSurfer?
    var isPlaying: bool
    var initialized: bool
    var duration: real
    var subscriptions: seq<Handle>
    ghost var created: nat      // instances this component has created
    ghost var unmounted: bool   // the subscription effect's cleanup has run

    ghost predicate Valid()
      reads this, wavesurfer
    {
      && created <= 1
      && (wavesurfer == null <==> created == 0)
      && (wavesurfer == null ==> subscriptions == [] && !unmounted)
      && (subscriptions == [] ==> !isPlaying && !initialized && duration == 0.0 && !unmounted)
      && (subscriptions == [] || subscriptions == HANDLES)
      && (wavesurfer != null ==>
            && wavesurfer.Valid()
            && wavesurfer.binds == |subscriptions|
            && (!unmounted ==>
                  && !wavesurfer.destroyed
                  && wavesurfer.unbinds == 0
                  && wavesurfer.listeners == (if subscriptions == [] then map[] else BOUND))
            && (unmounted ==>
                  && wavesurfer.destroyed
                  && wavesurfer.listeners == map[]
                  && wavesurfer.unbinds == wavesurfer.binds))
    }

    /** The first render: no instance, not playing, not initialized, duration 0. */
    constructor ()
      ensures Valid()
      ensures wavesurfer == null && !isPlaying && !initialized && duration == 0.0
      ensures subscriptions == [] && created == 0 && !unmounted
    {
      wavesurfer := null;
      isPlaying := false;
      initialized := false;
      duration := 0.0;
      subscriptions := [];
      created := 0;
      unmounted := false;
    }

    /** The creation effect, run whenever `speech` or `entry` changes. It
        creates an instance only when the entry is intersecting, the speech
        has a source and no instance exists; otherwise it does nothing. */
    method Effect(isIntersecting: bool, src: Option<string>)
      requires Valid() && !unmounted
      modifies this
      ensures Valid() && !unmounted
      ensures old(wavesurfer) == null && isIntersecting && HasSrc(src) ==>
        && fresh(wavesurfer) && wavesurfer.url == src.value && created == 1
        && !wavesurfer.playing && wavesurfer.listeners == map[] && !wavesurfer.destroyed
      ensures !(old(wavesurfer) == null && isIntersecting && HasSrc(src)) ==>
        wavesurfer == old(wavesurfer) && created == old(created)
      ensures isPlaying == old(isPlaying) && initialized == old(initialized)
      ensures duration == old(duration) && subscriptions == old(subscriptions)
    {
      if !isIntersecting { return; }
      if !HasSrc(src) { return; }
      if wavesurfer != null { return; }
      var ws := new WaveSurfer.Create(src.value);
      wavesurfer := ws;
      created := created + 1;
    }

    /** The subscription effect, run once for each value of `wavesurfer`: with
        an instance it binds the play, pause and decode listeners. */
    method Subscribe()
      requires Valid() && !unmounted && subscriptions == []
      modifies this, wavesurfer
      ensures Valid() && !unmounted
      ensures wavesurfer == old(wavesurfer)
      ensures old(wavesurfer) == null ==> subscriptions == []
      ensures old(wavesurfer) != null ==>
        && subscriptions == HANDLES
        && wavesurfer.listeners == BOUND
        && wavesurfer.binds == 3
        && wavesurfer.playing == old(wavesurfer.playing)
      ensures isPlaying == old(isPlaying) && initialized == old(initialized)
      ensures duration == old(duration) && created == old(created)
    {
      if wavesurfer == null { return; }
      var ws := wavesurfer;
      var onPlay := ws.On(Play);
      var onPause := ws.On(Pause);
      var onDecode := ws.On(Decode);
      subscriptions := [onPlay, onPause, onDecode];
    }

    /** The `play` listener: sets `isPlaying` and nothing else. */
    method OnPlay()
      requires Valid() && wavesurfer != null && Play in wavesurfer.listeners.Values
      modifies this
      ensures Valid()
      ensures isPlaying
      ensures wavesurfer == old(wavesurfer) && initialized == old(initialized)
      ensures duration == old(duration) && subscriptions == old(subscriptions)
      ensures created == old(created) && unmounted == old(unmounted)
    {
      isPlaying := true;
    }

    /** The `pause` listener: clears `isPlaying` and nothing else. */
    method OnPause()
      requires Valid() && wavesurfer != null && Pause in wavesurfer.listeners.Values
      modifies this
      ensures Valid()
      ensures !isPlaying
      ensures wavesurfer == old(wavesurfer) && initialized == old(initialized)
      ensures duration == old(duration) && subscriptions == old(subscriptions)
      ensures created == old(created) && unmounted == old(unmounted)
    {
      isPlaying := false;
    }

    /** The `decode` listener: takes the duration the engine reports and marks
        the player initialized. */
    method OnDecode(engineDuration: real)
      requires Valid() && wavesurfer != null && Decode in wavesurfer.listeners.Values
      modifies this
      ensures Valid()
      ensures initialized && duration == engineDuration
      ensures wavesurfer == old(wavesurfer) && isPlaying == old(isPlaying)
      ensures subscriptions == old(subscriptions)
      ensures created == old(created) && unmounted == old(unmounted)
    {
      duration := engineDuration;
      initialized := true;
    }

    /** `onPlayClick`: pauses a playing engine and plays one that is not. */
    method Click()
      requires Valid() && !unmounted && wavesurfer != null
      modifies wavesurfer
      ensures Valid()
      ensures wavesurfer.playing == !old(wavesurfer.playing)
      ensures wavesurfer.listeners == old(wavesurfer.listeners)
      ensures wavesurfer.binds == old(wavesurfer.binds) && wavesurfer.unbinds == old(wavesurfer.unbinds)
      ensures wavesurfer.destroyed == old(wavesurfer.destroyed)
    {
      if wavesurfer.playing {
        wavesurfer.PausePlayback();
      } else {
        wavesurfer.StartPlayback();
      }
    }

    /** The cleanup of the subscription effect: calls every unsubscribe
        function, leaving no live listener, then destroys the instance. */
    method Cleanup()
      requires Valid() && !unmounted && wavesurfer != null && subscriptions != []
      modifies this, wavesurfer
      ensures Valid() && unmounted
      ensures wavesurfer == old(wavesurfer) && wavesurfer.destroyed
      ensures wavesurfer.listeners == map[]
      ensures wavesurfer.unbinds == wavesurfer.binds == |subscriptions|
      ensures wavesurfer.playing == old(wavesurfer.playing)
      ensures isPlaying == old(isPlaying) && initialized == old(initialized)
      ensures duration == old(duration) && subscriptions == old(subscriptions)
      ensures created == old(created)
    {
      var ws := wavesurfer;
      var i := 0;
      while i < |subscriptions|
        invariant 0 <= i <= |subscriptions|
        invariant ws.Valid() && ws.binds == |subscriptions| && !ws.destroyed
        invariant ws.listeners == UnbindAll(BOUND, subscriptions[..i])
        invariant ws.unbinds == i && ws.playing == old(ws.playing)
        modifies ws
      {
        ws.Unsubscribe(subscriptions[i]);
        i := i + 1;
      }
      assert subscriptions[..i] == subscriptions;
      UnbindAllClears(BOUND, subscriptions);
      ws.Destroy();
      unmounted := true;
    }
  }

  /** The creation effect re-runs with a new source, after the visibility
      flickered: the first instance is kept and no second one is created. */
  method RecreationScenario(first: string, second: string) returns (url: string, sameInstance: bool)
    requires first != "" && second != ""
    ensures url == first && sameInstance
  {
    var player := new SpeechPlayer();
    player.Effect(true, Some(first));
    var ws := player.wavesurfer;
    player.Effect(false, Some(first));
    player.Effect(true, Some(second));
    player.Effect(true, None);
    sameInstance := player.wavesurfer == ws;
    url := player.wavesurfer.url;
  }
  /** A whole session: the creation effect while hidden and then visible,
      the subscription effect, a decode, a click that plays and one that
      pauses with the engine's answering events, and the cleanup. The player
      ends initialized with the decoded duration and not playing, and its
      engine ends destroyed with no live listener and as many unbinds as
      binds. */
  method LifecycleScenario(src: string, decodedDuration: real)
    returns (initialized: bool, duration: real, isPlaying: bool,
             playedOnFirstClick: bool, pausedOnSecondClick: bool,
             live: nat, binds: nat, unbinds: nat, destroyed: bool)
    requires src != ""
    ensures initialized && duration == decodedDuration && !isPlaying
    ensures playedOnFirstClick && pausedOnSecondClick
    ensures live == 0 && binds == 3 && unbinds == 3 && destroyed
  {
    var player := new SpeechPlayer();
    player.Effect(false, Some(src));
    player.Subscribe();
    player.Effect(true, Some(src));
    player.Subscribe();
    assert BOUND[0] == Play && BOUND[1] == Pause && BOUND[2] == Decode;
    player.OnDecode(decodedDuration);
    player.Click();
    playedOnFirstClick := player.wavesurfer.playing;
    player.OnPlay();
    player.Click();
    pausedOnSecondClick := !player.wavesurfer.playing;
    player.OnPause();
    player.Cleanup();
    initialized, duration, isPlaying := player.initialized, player.duration, player.isPlaying;
    var ws := player.wavesurfer;
    live, binds, unbinds, destroyed := |ws.listeners|, ws.binds, ws.unbinds, ws.destroyed;
  }
}

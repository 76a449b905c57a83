/**
 * The mediaspawner plugin: setup of one instance, its loading state
 * machine driven by page events, and the start/end/teardown callbacks.
 *
 * `Page` is the state every instance shares: the names defined on
 * `window.Popcorn`, the registry `playerTypeLoading` (only ever set to
 * true, so the set of keys set), the log of `Popcorn.getScript` calls, the
 * fetch callbacks not yet run, and the instances (the plugin's `options`
 * objects). Timers and script loading become events the environment
 * delivers in any order: `PollTick` (a 300 ms timer fires), `FetchCompleted`
 * (a fetched script finished and its callback runs) and `SymbolAppears`
 * (a script defined a name on `window.Popcorn`).
 */
module Spawner {
  import opened Wrappers
  import SourceType
  import opened Presentation
  import opened Loading

  // ---------------------------------------------------------------------
  // Configuration and its errors

  datatype SetupError = SourceMissing | TargetMissing | Unsupported

  /** The message reported through `Popcorn.error`. */
  function Message(e: SetupError): string {
    match e
    case SourceMissing => "Error. Source must be specified."
    case TargetMissing => "Target MediaSpawner container doesn't exist."
    case Unsupported => "Vimeo and soundcloud are currently not supported by the MediaSpawner Plugin."
  }

  /** Each error is reported with its own message, so the message a failed
      setup returns tells which check failed. */
  lemma MessagesDistinct(e1: SetupError, e2: SetupError)
    ensures Message(e1) == Message(e2) <==> e1 == e2
  {
  }

  /** The options a user passes; "" stands for an option left out (both are
      falsy), and `width`/`height` may be absent. */
  datatype Options = Options(source: string, target: string, caption: string, autoplay: bool,
                             width: Option<Dim>, height: Option<Dim>)

  /** The target element found by id: only its rendered size is used. */
  datatype Element = Element(offsetWidth: nat, offsetHeight: nat)

  /** The checks of `_setup`, in order; the first error reported aborts
      setup. On success, the media type of the source. */
  function CheckSetup(source: string, targetFound: bool): (r: Result<string, SetupError>)
    ensures r == Failure(SourceMissing) <==> source == ""
    ensures r == Failure(TargetMissing) <==> source != "" && !targetFound
    ensures r == Failure(Unsupported) <==>
      source != "" && targetFound && SourceType.MediaType(source) in {"vimeo", "soundcloud"}
    ensures r.Success? ==> r.value == SourceType.MediaType(source)
    ensures r.Success? ==> r.value in {SourceType.HTML, "youtube", "baseplayer"}
  {
    SourceType.MediaTypeMeaning(source);
    if source == "" then Failure(SourceMissing)
    else if !targetFound then Failure(TargetMissing)
    else
      var mediaType := SourceType.MediaType(source);
      if mediaType == "vimeo" || mediaType == "soundcloud" then Failure(Unsupported)
      else Success(mediaType)
  }

  // ---------------------------------------------------------------------
  // One instance

  /**
   * The fields `_setup` stores on `options`, plus what the instance is
   * waiting for. `captionDisplay` is the caption container's `display`
   * (None when there is no caption); `attached` says whether the plugin's
   * container still hangs under the target.
   */
  datatype Spawn = Spawn(
    source: string, target: string, mediaType: string, containerId: string,
    width: Dim, height: Dim, captionDisplay: Option<string>, autoplay: bool,
    phase: Phase, id: Option<string>, popcorn: Option<Player>, attached: bool)

  /** An instance as `_setup` configures it, before any loading decision
      (its phase is then set by `Settle`). */
  function Configured(opts: Options, target: Element, guid: string): (s: Spawn)
    ensures s.source == opts.source && s.target == opts.target && s.autoplay == opts.autoplay
    ensures s.mediaType == SourceType.MediaType(opts.source)
    ensures s.containerId == "mediaSpawnerdiv-" + guid
    ensures s.width == SizeDefault(opts.width, target.offsetWidth, "400") && Truthy(s.width)
    ensures s.height == SizeDefault(opts.height, target.offsetHeight, "200") && Truthy(s.height)
    ensures s.captionDisplay.Some? <==> opts.caption != ""
    ensures s.captionDisplay.Some? ==> s.captionDisplay.value == "none"
    ensures s.popcorn == None && s.id == None && s.attached
  {
    Spawn(opts.source, opts.target, SourceType.MediaType(opts.source), "mediaSpawnerdiv-" + guid,
          SizeDefault(opts.width, target.offsetWidth, "400"),
          SizeDefault(opts.height, target.offsetHeight, "200"),
          if opts.caption != "" then Some("none") else None,
          opts.autoplay, Waiting(PlayerReady, OnTimer), None, None, true)
  }

  /** Building the player: `options.id` becomes the container's id, the
      handle comes from `Popcorn.smart("#" + id, source)`, an HTML player
      gets native controls, and the surface is collapsed and hidden. */
  function Construct(s: Spawn, members: set<string>): (t: Spawn)
    ensures t.id == Some(s.containerId)
    ensures t.popcorn.Some?
    ensures t.popcorn.value.selector == "#" + s.containerId && t.popcorn.value.source == s.source
    ensures t.popcorn.value.media == Collapsed
    ensures t.popcorn.value.calls == if s.mediaType == SourceType.HTML then [Controls(true)] else []
    ensures t.popcorn.value.members == members
    ensures t == s.(id := t.id, popcorn := t.popcorn)
  {
    s.(id := Some(s.containerId),
       popcorn := Some(Player("#" + s.containerId, s.source, members, Collapsed,
                              if s.mediaType == SourceType.HTML then [Controls(true)] else [])))
  }

  /** The instance after a loading decision. */
  function Settle(s: Spawn, o: Outcome, members: set<string>): Spawn {
    if o.next == Constructed then Construct(s.(phase := Constructed), members)
    else s.(phase := o.next)
  }

  /** `start`: show the caption, give the surface its configured size and
      make it visible, and play if autoplay is set. */
  function Enter(s: Spawn): (t: Spawn)
    requires s.popcorn.Some?
    ensures t.popcorn.Some? && t.popcorn.value.media == Shown(s.width, s.height)
    ensures t.popcorn.value.calls == s.popcorn.value.calls + (if s.autoplay then [Play] else [])
    ensures Play in t.popcorn.value.calls[|s.popcorn.value.calls|..] <==> s.autoplay
    ensures t.captionDisplay == if s.captionDisplay.Some? then Some("") else None
    ensures t.popcorn.value.(media := s.popcorn.value.media, calls := s.popcorn.value.calls) == s.popcorn.value
    ensures t == s.(captionDisplay := t.captionDisplay, popcorn := t.popcorn)
  {
    var p := s.popcorn.value;
    s.(captionDisplay := if s.captionDisplay.Some? then Some("") else None,
       popcorn := Some(p.(media := Shown(s.width, s.height),
                          calls := p.calls + if s.autoplay then [Play] else [])))
  }

  /** `end`: hide the caption, collapse and hide the surface, and pause
      only an HTML player (the others pause themselves when hidden). */
  function Exit(s: Spawn): (t: Spawn)
    requires s.popcorn.Some?
    ensures t.popcorn.Some? && t.popcorn.value.media == Collapsed
    ensures t.popcorn.value.calls == s.popcorn.value.calls + (if s.mediaType == SourceType.HTML then [Pause] else [])
    ensures Pause in t.popcorn.value.calls[|s.popcorn.value.calls|..] <==> s.mediaType == SourceType.HTML
    ensures t.captionDisplay == if s.captionDisplay.Some? then Some("none") else None
    ensures t.popcorn.value.(media := s.popcorn.value.media, calls := s.popcorn.value.calls) == s.popcorn.value
    ensures t == s.(captionDisplay := t.captionDisplay, popcorn := t.popcorn)
  {
    var p := s.popcorn.value;
    s.(captionDisplay := if s.captionDisplay.Some? then Some("none") else None,
       popcorn := Some(p.(media := Collapsed,
                          calls := p.calls + if s.mediaType == SourceType.HTML then [Pause] else [])))
  }

  /** `_teardown` as written: destroy the handle only if it has a member
      named `destory`, and detach the container when the target element
      still exists. */
  function TornDown(s: Spawn, targetExists: bool): (t: Spawn)
    ensures t.popcorn.Some? <==> s.popcorn.Some?
    ensures s.popcorn.Some? ==>
      t.popcorn.value.calls == s.popcorn.value.calls + (if DestroyGuardAsWritten(s.popcorn) then [Destroy] else [])
    ensures s.popcorn.Some? ==> t.popcorn.value.(calls := s.popcorn.value.calls) == s.popcorn.value
    ensures t.attached == (s.attached && !targetExists)
    ensures t == s.(popcorn := t.popcorn, attached := t.attached)
  {
    s.(popcorn := if DestroyGuardAsWritten(s.popcorn)
                  then Some(s.popcorn.value.(calls := s.popcorn.value.calls + [Destroy]))
                  else s.popcorn,
       attached := s.attached && !targetExists)
  }

  /** `_teardown` as evidently intended: the guard tests `destroy`, the
      member it goes on to call. */
  function TornDownIntended(s: Spawn, targetExists: bool): (t: Spawn)
    ensures t.popcorn.Some? <==> s.popcorn.Some?
    ensures s.popcorn.Some? ==>
      t.popcorn.value.calls == s.popcorn.value.calls + (if DestroyGuard(s.popcorn) then [Destroy] else [])
    ensures s.popcorn.Some? ==> t.popcorn.value.(calls := s.popcorn.value.calls) == s.popcorn.value
    ensures t.attached == (s.attached && !targetExists)
    ensures t == s.(popcorn := t.popcorn, attached := t.attached)
  {
    s.(popcorn := if DestroyGuard(s.popcorn)
                  then Some(s.popcorn.value.(calls := s.popcorn.value.calls + [Destroy]))
                  else s.popcorn,
       attached := s.attached && !targetExists)
  }

  /** As written, teardown never destroys a handle without a `destory`
      member, however many `destroy` members it has: its handle is
      left exactly as it was. */
  lemma TeardownAsWrittenSkipsDestroy(s: Spawn, targetExists: bool)
    requires s.popcorn.Some? && "destory" !in s.popcorn.value.members
    ensures TornDown(s, targetExists).popcorn == s.popcorn
    ensures Destroy in TornDown(s, targetExists).popcorn.value.calls <==> Destroy in s.popcorn.value.calls
  {
  }

  /** With the corrected guard, teardown destroys a constructed handle that
      has a `destroy` member, whatever else it has. */
  lemma TeardownDestroysHandle(s: Spawn, targetExists: bool)
    requires s.popcorn.Some? && "destroy" in s.popcorn.value.members
    ensures TornDownIntended(s, targetExists).popcorn.value.calls == s.popcorn.value.calls + [Destroy]
  {
  }

  /** A player whose size the user left out is shown, once `start` runs,
      at the target's measured size in pixels. */
  lemma MeasuredSizeShown(opts: Options, w: nat, h: nat, guid: string, members: set<string>)
    requires opts.width == None && opts.height == None && w != 0 && h != 0
    ensures var s := Construct(Configured(opts, Element(w, h), guid), members);
      Enter(s).popcorn.value.media == Style(Decimal(w) + "px", Decimal(h) + "px", "visible")
  {
  }

  /** An interval entered and left again leaves the player as it was
      constructed: collapsed, hidden, caption hidden, whatever the configured
      size; only the play/pause calls remain. */
  lemma ExitAfterEnterRestores(s: Spawn)
    requires s.popcorn.Some? && s.popcorn.value.media == Collapsed
    requires s.captionDisplay.Some? ==> s.captionDisplay.value == "none"
    ensures Exit(Enter(s)).popcorn.value.media == Collapsed
    ensures Exit(Enter(s)) ==
      s.(popcorn := Some(s.popcorn.value.(calls := s.popcorn.value.calls
                                                  + (if s.autoplay then [Play] else [])
                                                  + (if s.mediaType == SourceType.HTML then [Pause] else []))))
  {
  }

  /** An instance whose player was constructed, as the page keeps it. */
  predicate SpawnOk(s: Spawn, present: set<string>) {
    && s.mediaType == SourceType.MediaType(s.source)
    && s.mediaType in {SourceType.HTML, "youtube", "baseplayer"}
    && Truthy(s.width) && Truthy(s.height)
    && (s.phase.Waiting? && s.phase.check == TypeLoaded ==> PLAYER in present && s.mediaType != SourceType.HTML)
    && (s.phase == Constructed ==> PLAYER in present && (s.mediaType == SourceType.HTML || s.mediaType in present))
    && (s.popcorn.Some? <==> s.phase == Constructed)
    && (s.id == if s.phase == Constructed then Some(s.containerId) else None)
    && (s.popcorn.Some? ==>
          s.popcorn.value.selector == "#" + s.containerId && s.popcorn.value.source == s.source)
  }

  /** A sound decision keeps an instance consistent with the page. */
  lemma SettleKeepsSpawnOk(s: Spawn, o: Outcome, members: set<string>, present: set<string>, loading: set<string>)
    requires SpawnOk(s, present) && s.phase.Waiting? && Sound(o, s.mediaType, present, loading)
    ensures SpawnOk(Settle(s, o, members), present)
    ensures Settle(s, o, members).phase == o.next
    ensures Settle(s, o, members).mediaType == s.mediaType
    ensures o.claim.Some? ==> AwaitsFetch(Settle(s, o, members), o.claim.value)
  {
  }

  /** The instance waits for the callback of the fetch of `key`. */
  predicate AwaitsFetch(s: Spawn, key: string) {
    s.phase.Waiting? && s.phase.wake == OnFetch && KeyOf(s.phase.check, s.mediaType) == key
  }

  // ---------------------------------------------------------------------
  // The fetch log

  /** One `Popcorn.getScript` call: the registry key it was issued for and
      the script's URL. */
  datatype Fetch = Fetch(key: string, url: string)

  function FetchKeys(fs: seq<Fetch>): set<string> {
    set f | f in fs :: f.key
  }

  predicate NoDuplicateKeys(fs: seq<Fetch>) {
    forall a, b :: 0 <= a < b < |fs| ==> fs[a].key != fs[b].key
  }

  /** How many fetches were issued for `key`. */
  function FetchCount(fs: seq<Fetch>, key: string): nat {
    if fs == [] then 0
    else FetchCount(fs[..|fs| - 1], key) + (if fs[|fs| - 1].key == key then 1 else 0)
  }

  /** A log without repeated keys holds at most one fetch per key, and
      exactly one for each key it mentions. */
  lemma {:induction false} AtMostOneFetchPerKey(fs: seq<Fetch>, key: string)
    requires NoDuplicateKeys(fs)
    ensures FetchCount(fs, key) <= 1
    ensures FetchCount(fs, key) == 1 <==> key in FetchKeys(fs)
  {
    if fs != [] {
      var init := fs[..|fs| - 1];
      assert NoDuplicateKeys(init);
      AtMostOneFetchPerKey(init, key);
      assert FetchKeys(fs) == FetchKeys(init) + {fs[|fs| - 1].key} by {
        assert fs == init + [fs[|fs| - 1]];
      }
    }
  }

  /** The registry key a script stands for, as a name on `window.Popcorn`. */
  function SymbolOfKey(key: string): string {
    if key == MODULE then PLAYER else key
  }

  /** Between two states, either nothing was fetched, or exactly one fetch
      was appended, for a key that was unclaimed and whose name was absent. */
  predicate FetchStep(present0: set<string>, loading0: set<string>, fetches0: seq<Fetch>, fetches1: seq<Fetch>) {
    fetches1 == fetches0
    || (&& |fetches1| == |fetches0| + 1
        && fetches1[..|fetches0|] == fetches0
        && fetches1[|fetches0|].key !in loading0
        && SymbolOfKey(fetches1[|fetches0|].key) !in present0
        && fetches1[|fetches0|].url == ScriptUrl(fetches1[|fetches0|].key))
  }

  function ClaimSet(o: Outcome): set<string> {
    if o.claim.Some? then {o.claim.value} else {}
  }

  function FetchesOf(o: Outcome): seq<Fetch> {
    if o.claim.Some? then [Fetch(o.claim.value, ScriptUrl(o.claim.value))] else []
  }

  function CallbacksAfter(callbacks: map<string, nat>, o: Outcome, i: nat): map<string, nat> {
    if o.claim.Some? then callbacks[o.claim.value := i] else callbacks
  }

  // ---------------------------------------------------------------------
  // Consistency of the shared state, on values

  /** The registry holds exactly the keys fetched, each fetched once, from
      the URL that belongs to it. */
  predicate RegistryOk(loading: set<string>, fetches: seq<Fetch>) {
    && loading == FetchKeys(fetches)
    && NoDuplicateKeys(fetches)
    && (forall f :: f in fetches ==> f.url == ScriptUrl(f.key))
  }

  /** Every pending fetch callback belongs to a claimed key and to an
      instance that waits for exactly that callback. */
  predicate CallbacksOk(loading: set<string>, callbacks: map<string, nat>, instances: seq<Spawn>) {
    && callbacks.Keys <= loading
    && (forall k :: k in callbacks ==>
          callbacks[k] < |instances| && AwaitsFetch(instances[callbacks[k]], k))
  }

  /** An instance waiting for a fetch callback has one pending. */
  predicate Registered(callbacks: map<string, nat>, instances: seq<Spawn>, i: nat)
    requires i < |instances|
  {
    var s := instances[i];
    s.phase.Waiting? && s.phase.wake == OnFetch ==>
      KeyOf(s.phase.check, s.mediaType) in callbacks && callbacks[KeyOf(s.phase.check, s.mediaType)] == i
  }

  predicate AllRegistered(callbacks: map<string, nat>, instances: seq<Spawn>) {
    forall i: nat :: i < |instances| ==> Registered(callbacks, instances, i)
  }

  predicate AllOk(instances: seq<Spawn>, present: set<string>) {
    forall i :: 0 <= i < |instances| ==> SpawnOk(instances[i], present)
  }

  /** Claiming a key nobody claimed and logging its fetch keeps the registry
      consistent. */
  lemma ClaimKeepsRegistry(loading: set<string>, fetches: seq<Fetch>, o: Outcome)
    requires RegistryOk(loading, fetches)
    requires o.claim.Some? ==> o.claim.value !in loading
    ensures RegistryOk(loading + ClaimSet(o), fetches + FetchesOf(o))
  {
    if o.claim.Some? {
      var key := o.claim.value;
      var fs := fetches + FetchesOf(o);
      forall a | 0 <= a < |fetches| ensures fetches[a].key != key {
        assert fetches[a] in fetches;
      }
      assert forall f :: f in fs <==> f in fetches || f == Fetch(key, ScriptUrl(key));
      assert FetchKeys(fs) == FetchKeys(fetches) + {key};
    }
  }

  /** A sound decision appends at most the one fetch it claims (a media
      type is never the registry key of the player module). */
  lemma ClaimIsFetchStep(present: set<string>, loading: set<string>, fetches: seq<Fetch>, o: Outcome, mediaType: string)
    requires Sound(o, mediaType, present, loading) && mediaType != MODULE
    ensures FetchStep(present, loading, fetches, fetches + FetchesOf(o))
  {
    if o.claim.Some? {
      assert SymbolOfKey(o.claim.value) == SymbolOf(o.next.check, mediaType);
    }
  }

  /** Replacing one instance by a consistent one keeps all consistent. */
  lemma SettleKeepsAllOk(instances: seq<Spawn>, present: set<string>, i: nat, s': Spawn)
    requires i < |instances| && AllOk(instances, present) && SpawnOk(s', present)
    ensures AllOk(instances[i := s'], present)
  {
  }

  /** The pending callbacks stay consistent when instance `i` settles. */
  lemma SettleKeepsCallbacks(loading: set<string>, callbacks: map<string, nat>, instances: seq<Spawn>,
                             i: nat, o: Outcome, s': Spawn)
    requires i < |instances|
    requires callbacks.Keys <= loading
    requires forall k :: k in callbacks ==>
      callbacks[k] < |instances| && callbacks[k] != i && AwaitsFetch(instances[callbacks[k]], k)
    requires o.claim.Some? ==> AwaitsFetch(s', o.claim.value)
    ensures CallbacksOk(loading + ClaimSet(o), CallbacksAfter(callbacks, o, i), instances[i := s'])
  {
  }

  /** Every waiting instance stays registered when instance `i` settles. */
  lemma SettleKeepsRegistered(loading: set<string>, callbacks: map<string, nat>, instances: seq<Spawn>,
                              i: nat, o: Outcome, s': Spawn)
    requires i < |instances|
    requires callbacks.Keys <= loading
    requires o.claim.Some? ==> o.claim.value !in loading
    requires forall j: nat :: j < |instances| && j != i ==> Registered(callbacks, instances, j)
    requires s'.phase == o.next && (o.claim.Some? ==> AwaitsFetch(s', o.claim.value))
    requires o.claim.Some? <==> o.next.Waiting? && o.next.wake == OnFetch
    ensures AllRegistered(CallbacksAfter(callbacks, o, i), instances[i := s'])
  {
    var cbs := CallbacksAfter(callbacks, o, i);
    var xs := instances[i := s'];
    forall j: nat | j < |xs| ensures Registered(cbs, xs, j) {
      if j != i {
        assert Registered(callbacks, instances, j);
        var t := instances[j];
        if t.phase.Waiting? && t.phase.wake == OnFetch {
          assert KeyOf(t.phase.check, t.mediaType) in callbacks;
        }
      }
    }
  }

  // ---------------------------------------------------------------------
  // The page

  class Page {
    /** Names defined on `window.Popcorn` ("player", "youtube", ...). */
    var present: set<string>
    /** Keys set in `playerTypeLoading` ("module" and media types). */
    var loading: set<string>
    /** Every `Popcorn.getScript` call, in order. */
    var fetches: seq<Fetch>
    /** Fetch callbacks not yet run: registry key to the waiting instance. */
    var callbacks: map<string, nat>
    /** The plugin instances, by the order of their setup. */
    var instances: seq<Spawn>
    /** The members of the handles `Popcorn.smart` returns. */
    const members: set<string>

    ghost predicate Valid()
      reads this
    {
      && RegistryOk(loading, fetches)
      && CallbacksOk(loading, callbacks, instances)
      && AllRegistered(callbacks, instances)
      && AllOk(instances, present)
    }

    /** A page before any instance: `present` is what the page already
        defines on `window.Popcorn`. */
    constructor (present: set<string>, members: set<string>)
      ensures Valid()
      ensures this.present == present && this.members == members
      ensures loading == {} && fetches == [] && callbacks == map[] && instances == []
    {
      this.present := present;
      this.members := members;
      loading := {};
      fetches := [];
      callbacks := map[];
      instances := [];
    }

    /** A script defines a name on `window.Popcorn`. */
    method SymbolAppears(name: string)
      requires Valid()
      modifies this
      ensures Valid()
      ensures present == old(present) + {name}
      ensures loading == old(loading) && fetches == old(fetches)
      ensures callbacks == old(callbacks) && instances == old(instances)
    {
      present := present + {name};
    }

    /** Carry out a loading decision for instance `i`: claim and fetch the
        key it names, if any, and move the instance to its next phase. */
    method Proceed(i: nat, o: Outcome)
      requires i < |instances|
      requires RegistryOk(loading, fetches)
      requires callbacks.Keys <= loading
      requires forall k :: k in callbacks ==>
        callbacks[k] < |instances| && callbacks[k] != i && AwaitsFetch(instances[callbacks[k]], k)
      requires forall j: nat :: j < |instances| && j != i ==> Registered(callbacks, instances, j)
      requires AllOk(instances, present)
      requires instances[i].phase.Waiting?
      requires Sound(o, instances[i].mediaType, present, loading)
      modifies this
      ensures Valid()
      ensures present == old(present)
      ensures instances == old(instances)[i := Settle(old(instances[i]), o, members)]
      ensures loading == old(loading) + ClaimSet(o)
      ensures fetches == old(fetches) + FetchesOf(o)
      ensures callbacks == CallbacksAfter(old(callbacks), o, i)
      ensures FetchStep(old(present), old(loading), old(fetches), fetches)
    {
      var s := instances[i];
      var s' := Settle(s, o, members);
      SettleKeepsSpawnOk(s, o, members, present, loading);
      SettleKeepsAllOk(instances, present, i, s');
      ClaimKeepsRegistry(loading, fetches, o);
      ClaimIsFetchStep(present, loading, fetches, o, s.mediaType);
      SettleKeepsCallbacks(loading, callbacks, instances, i, o, s');
      SettleKeepsRegistered(loading, callbacks, instances, i, o, s');
      instances, loading, fetches, callbacks :=
        instances[i := s'], loading + ClaimSet(o), fetches + FetchesOf(o), CallbacksAfter(callbacks, o, i);
    }

    /** A timer fires and runs the check instance `i` was polling with. */
    method PollTick(i: nat)
      requires Valid()
      requires i < |instances| && instances[i].phase.Waiting? && instances[i].phase.wake == OnTimer
      modifies this
      ensures Valid()
      ensures present == old(present)
      ensures var s := old(instances[i]);
              var o := Resume(s.phase.check, s.mediaType, old(present), old(loading));
              && instances == old(instances)[i := Settle(s, o, members)]
              && loading == old(loading) + ClaimSet(o)
              && fetches == old(fetches) + FetchesOf(o)
              && callbacks == CallbacksAfter(old(callbacks), o, i)
      ensures FetchStep(old(present), old(loading), old(fetches), fetches)
    {
      var s := instances[i];
      assert SpawnOk(s, present);
      forall k | k in callbacks ensures callbacks[k] != i {
        assert AwaitsFetch(instances[callbacks[k]], k);
      }
      var o := Resume(s.phase.check, s.mediaType, present, loading);
      Proceed(i, o);
    }

    /** The script fetched for `key` finished; its callback runs the check
        of the instance that issued the fetch. */
    method FetchCompleted(key: string)
      requires Valid()
      requires key in callbacks
      modifies this
      ensures Valid()
      ensures present == old(present)
      ensures var i := old(callbacks[key]);
              var s := old(instances[i]);
              var o := Resume(s.phase.check, s.mediaType, old(present), old(loading));
              && instances == old(instances)[i := Settle(s, o, members)]
              && loading == old(loading) + ClaimSet(o)
              && fetches == old(fetches) + FetchesOf(o)
              && callbacks == CallbacksAfter(old(callbacks) - {key}, o, i)
      ensures FetchStep(old(present), old(loading), old(fetches), fetches)
    {
      var i := callbacks[key];
      var s := instances[i];
      assert SpawnOk(s, present);
      assert AwaitsFetch(s, key);
      var rest := callbacks - {key};
      forall k | k in rest ensures rest[k] != i {
        assert AwaitsFetch(instances[callbacks[k]], k);
      }
      forall j: nat | j < |instances| && j != i ensures Registered(rest, instances, j) {
        assert Registered(callbacks, instances, j);
      }
      callbacks := rest;
      var o := Resume(s.phase.check, s.mediaType, present, loading);
      Proceed(i, o);
    }

    /** `_setup`: check the options, configure the instance, then start
        loading the player module and the type's implementation. */
    method Setup(opts: Options, target: Option<Element>, guid: string) returns (r: Result<nat, string>)
      requires Valid()
      modifies this
      ensures Valid()
      ensures present == old(present)
      ensures CheckSetup(opts.source, target.Some?).Failure? ==>
        && r == Failure(Message(CheckSetup(opts.source, target.Some?).error))
        && instances == old(instances) && loading == old(loading)
        && fetches == old(fetches) && callbacks == old(callbacks)
      ensures CheckSetup(opts.source, target.Some?).Success? ==>
        var s := Configured(opts, target.value, guid);
        var o := StartLoading(s.mediaType, old(present), old(loading));
        && r == Success(|old(instances)|)
        && instances == old(instances) + [Settle(s, o, members)]
        && loading == old(loading) + ClaimSet(o)
        && fetches == old(fetches) + FetchesOf(o)
        && callbacks == CallbacksAfter(old(callbacks), o, |old(instances)|)
      ensures FetchStep(old(present), old(loading), old(fetches), fetches)
    {
      var checked := CheckSetup(opts.source, target.Some?);
      if checked.Failure? {
        return Failure(Message(checked.error));
      }
      var s := Configured(opts, target.value, guid);
      var i := |instances|;
      var xs := instances + [s];
      forall k | k in callbacks ensures callbacks[k] < |xs| && callbacks[k] != i && AwaitsFetch(xs[callbacks[k]], k) {
        assert AwaitsFetch(instances[callbacks[k]], k);
      }
      forall j: nat | j < |xs| && j != i ensures Registered(callbacks, xs, j) {
        assert Registered(callbacks, instances, j);
      }
      instances := xs;
      var o := StartLoading(s.mediaType, present, loading);
      Proceed(i, o);
      r := Success(i);
    }

    /** `start` for instance `i`. */
    method Start(i: nat)
      requires Valid()
      requires i < |instances| && instances[i].popcorn.Some?
      modifies this
      ensures Valid()
      ensures instances == old(instances)[i := Enter(old(instances[i]))]
      ensures present == old(present) && loading == old(loading)
      ensures fetches == old(fetches) && callbacks == old(callbacks)
    {
      PresentationKeepsConsistency(loading, callbacks, instances, present, i, Enter(instances[i]));
      instances := instances[i := Enter(instances[i])];
    }

    /** `end` for instance `i`. */
    method End(i: nat)
      requires Valid()
      requires i < |instances| && instances[i].popcorn.Some?
      modifies this
      ensures Valid()
      ensures instances == old(instances)[i := Exit(old(instances[i]))]
      ensures present == old(present) && loading == old(loading)
      ensures fetches == old(fetches) && callbacks == old(callbacks)
    {
      PresentationKeepsConsistency(loading, callbacks, instances, present, i, Exit(instances[i]));
      instances := instances[i := Exit(instances[i])];
    }

    /** `_teardown` (as written) for instance `i`; `targetExists` says whether the target
        element is still found by its id. Removing a container that is no
        longer a child of the target would throw, so the host tears an
        instance down once. */
    method Teardown(i: nat, targetExists: bool)
      requires Valid()
      requires i < |instances| && (instances[i].attached || !targetExists)
      modifies this
      ensures Valid()
      ensures instances == old(instances)[i := TornDown(old(instances[i]), targetExists)]
      ensures old(instances[i]).popcorn.Some? && "destory" !in old(instances[i]).popcorn.value.members ==>
        instances[i].popcorn == old(instances[i]).popcorn
      ensures present == old(present) && loading == old(loading)
      ensures fetches == old(fetches) && callbacks == old(callbacks)
    {
      PresentationKeepsConsistency(loading, callbacks, instances, present, i, TornDown(instances[i], targetExists));
      instances := instances[i := TornDown(instances[i], targetExists)];
    }
  }

  /** Replacing an instance by one that differs only in its caption, its
      handle's calls and style, or its attachment keeps the page consistent. */
  lemma PresentationKeepsConsistency(loading: set<string>, callbacks: map<string, nat>, instances: seq<Spawn>,
                                     present: set<string>, i: nat, s': Spawn)
    requires i < |instances|
    requires CallbacksOk(loading, callbacks, instances) && AllRegistered(callbacks, instances)
    requires AllOk(instances, present)
    requires s'.phase == instances[i].phase && s'.mediaType == instances[i].mediaType
    requires s'.source == instances[i].source && s'.containerId == instances[i].containerId
    requires s'.width == instances[i].width && s'.height == instances[i].height && s'.id == instances[i].id
    requires s'.popcorn.Some? == instances[i].popcorn.Some?
    requires s'.popcorn.Some? ==>
      s'.popcorn.value.selector == instances[i].popcorn.value.selector &&
      s'.popcorn.value.source == instances[i].popcorn.value.source
    ensures CallbacksOk(loading, callbacks, instances[i := s'])
    ensures AllRegistered(callbacks, instances[i := s'])
    ensures AllOk(instances[i := s'], present)
  {
    var xs := instances[i := s'];
    forall j: nat | j < |xs| ensures Registered(callbacks, xs, j) {
      assert Registered(callbacks, instances, j);
    }
  }

  /**
   * Two instances set up back to back on the same YouTube source (such as
   * the one `DocumentedExampleIsYouTube` names), on a page that defines
   * nothing yet. The first claims the player module; the second polls. When
   * the module arrives, the first claims the YouTube player and the second,
   * finding it claimed, polls again. Each dependency is fetched once, and
   * both instances end with a constructed player.
   */
  method SharedFetchScenario(source: string) returns (p: Page)
    requires SourceType.MediaType(source) == "youtube"
    ensures p.fetches == [Fetch(MODULE, PLAYER_URL), Fetch("youtube", ScriptUrl("youtube"))]
    ensures |p.instances| == 2
    ensures p.instances[0].phase == Constructed && p.instances[1].phase == Constructed
    ensures p.instances[0].mediaType == "youtube" && p.instances[1].mediaType == "youtube"
  {
    p := SetUpTwo(source);
    ModuleArrives(p);
    YouTubeArrives(p);
  }

  /** Both instances set up: the first waits for the module fetch it
      issued, the second polls for the module. */
  method SetUpTwo(source: string) returns (p: Page)
    requires SourceType.MediaType(source) == "youtube"
    ensures fresh(p)
    ensures p.Valid() && p.present == {}
    ensures p.loading == {MODULE} && p.callbacks == map[MODULE := 0]
    ensures p.fetches == [Fetch(MODULE, PLAYER_URL)]
    ensures |p.instances| == 2
    ensures p.instances[0].phase == Waiting(PlayerReady, OnFetch)
    ensures p.instances[1].phase == Waiting(PlayerReady, OnTimer)
    ensures p.instances[0].mediaType == "youtube" && p.instances[1].mediaType == "youtube"
  {
    var opts := Options(source, "mediaspawnerdiv", "", false, None, None);
    var target := Some(Element(640, 360));
    assert CheckSetup(source, true) == Success("youtube");
    p := new Page({}, {"destroy"});
    var r0 := p.Setup(opts, target, "1");
    assert p.instances[0].phase == Waiting(PlayerReady, OnFetch);
    assert p.loading == {MODULE} && p.callbacks == map[MODULE := 0];
    assert p.fetches == [Fetch(MODULE, PLAYER_URL)];
    var r1 := p.Setup(opts, target, "2");
  }

  /** The module script defines `Popcorn.player` and its callback runs:
      the first instance claims the YouTube player; then the second one's
      timer fires and it polls for the YouTube player. */
  method ModuleArrives(p: Page)
    requires p.Valid() && p.present == {}
    requires p.loading == {MODULE} && p.callbacks == map[MODULE := 0]
    requires p.fetches == [Fetch(MODULE, PLAYER_URL)]
    requires |p.instances| == 2
    requires p.instances[0].phase == Waiting(PlayerReady, OnFetch)
    requires p.instances[1].phase == Waiting(PlayerReady, OnTimer)
    requires p.instances[0].mediaType == "youtube" && p.instances[1].mediaType == "youtube"
    modifies p
    ensures p.Valid() && p.present == {PLAYER}
    ensures p.loading == {MODULE, "youtube"} && p.callbacks == map["youtube" := 0]
    ensures p.fetches == [Fetch(MODULE, PLAYER_URL), Fetch("youtube", ScriptUrl("youtube"))]
    ensures |p.instances| == 2
    ensures p.instances[0].phase == Waiting(TypeLoaded, OnFetch)
    ensures p.instances[1].phase == Waiting(TypeLoaded, OnTimer)
    ensures p.instances[0].mediaType == "youtube" && p.instances[1].mediaType == "youtube"
  {
    p.SymbolAppears(PLAYER);
    assert p.present == {PLAYER};
    assert Resume(PlayerReady, "youtube", p.present, p.loading) == Outcome(Waiting(TypeLoaded, OnFetch), Some("youtube"));
    p.FetchCompleted(MODULE);
    assert p.loading == {MODULE, "youtube"};
    assert p.callbacks == map["youtube" := 0];
    assert p.fetches == [Fetch(MODULE, PLAYER_URL), Fetch("youtube", ScriptUrl("youtube"))];
    assert Resume(PlayerReady, "youtube", p.present, p.loading) == Outcome(Waiting(TypeLoaded, OnTimer), None);
    p.PollTick(1);
  }

  /** The YouTube script defines `Popcorn.youtube` and its callback runs:
      the first instance constructs its player; then the second one's timer
      fires and it constructs its player too. */
  method YouTubeArrives(p: Page)
    requires p.Valid() && p.present == {PLAYER}
    requires p.loading == {MODULE, "youtube"} && p.callbacks == map["youtube" := 0]
    requires p.fetches == [Fetch(MODULE, PLAYER_URL), Fetch("youtube", ScriptUrl("youtube"))]
    requires |p.instances| == 2
    requires p.instances[0].phase == Waiting(TypeLoaded, OnFetch)
    requires p.instances[1].phase == Waiting(TypeLoaded, OnTimer)
    requires p.instances[0].mediaType == "youtube" && p.instances[1].mediaType == "youtube"
    modifies p
    ensures p.fetches == [Fetch(MODULE, PLAYER_URL), Fetch("youtube", ScriptUrl("youtube"))]
    ensures |p.instances| == 2
    ensures p.instances[0].phase == Constructed && p.instances[1].phase == Constructed
    ensures p.instances[0].mediaType == "youtube" && p.instances[1].mediaType == "youtube"
  {
    p.SymbolAppears("youtube");
    assert Resume(TypeLoaded, "youtube", p.present, p.loading) == Outcome(Constructed, None);
    p.FetchCompleted("youtube");
    assert p.fetches == [Fetch(MODULE, PLAYER_URL), Fetch("youtube", ScriptUrl("youtube"))];
    p.PollTick(1);
  }
}

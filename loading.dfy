/**
 * The loading decisions of one plugin instance.
 *
 * Setup ends by making sure the player module is loaded (`window.Popcorn.player`)
 * and then the player implementation of the media type (`window.Popcorn[type]`),
 * both fetched at most once through the shared registry `playerTypeLoading`.
 * The three nested callbacks of the source, `isPlayerReady`, `constructMedia`
 * and `checkPlayerTypeLoaded`, are pure decisions over a snapshot of the page:
 * the names defined on `window.Popcorn` (`present`) and the registry keys that
 * were claimed (`loading`). Each decision says what the instance waits for
 * next, and how it will be woken (by the callback of a fetch it issues, or by
 * a 300 ms timer), or that the player is constructed now.
 */
module Loading {
  import opened Wrappers
  import SourceType

  /** The name the player module defines on `window.Popcorn`. */
  const PLAYER := "player"
  /** The registry key of the player module. */
  const MODULE := "module"

  const PLAYER_URL := "http://popcornjs.org/code/modules/player/popcorn.player.js"

  /** The script fetched for a registry key. */
  function ScriptUrl(key: string): string {
    if key == MODULE then PLAYER_URL
    else "http://popcornjs.org/code/players/" + key + "/popcorn." + key + ".js"
  }

  /** The two polling checks: `isPlayerReady` and `checkPlayerTypeLoaded`. */
  datatype Check = PlayerReady | TypeLoaded

  /** What runs a pending check: the callback of a fetch, or a timer. */
  datatype Wake = OnFetch | OnTimer

  datatype Phase = Waiting(check: Check, wake: Wake) | Constructed

  /** The next phase, and the registry key claimed (and fetched) on the way. */
  datatype Outcome = Outcome(next: Phase, claim: Option<string>)

  /** The registry key a check depends on. */
  function KeyOf(c: Check, mediaType: string): string {
    if c == PlayerReady then MODULE else mediaType
  }

  /** The name on `window.Popcorn` a check waits for. */
  function SymbolOf(c: Check, mediaType: string): string {
    if c == PlayerReady then PLAYER else mediaType
  }

  /**
   * What every decision guarantees:
   *  - it claims a key exactly when the instance will be woken by a fetch;
   *  - it claims only a key nobody claimed, whose name is not yet defined,
   *    and that key is the one the awaited check depends on;
   *  - the type check is awaited only for a non-HTML type, once the player
   *    module is present;
   *  - the player is constructed only once `Popcorn.player` is present and,
   *    unless the type is HTML, `Popcorn[type]` too.
   */
  predicate Sound(o: Outcome, mediaType: string, present: set<string>, loading: set<string>) {
    && (o.claim.Some? <==> o.next.Waiting? && o.next.wake == OnFetch)
    && (o.claim.Some? ==>
          o.claim.value == KeyOf(o.next.check, mediaType)
          && o.claim.value !in loading
          && SymbolOf(o.next.check, mediaType) !in present)
    && (o.next.Waiting? && o.next.check == TypeLoaded ==>
          PLAYER in present && mediaType != SourceType.HTML)
    && (o.next == Constructed ==>
          PLAYER in present && (mediaType == SourceType.HTML || mediaType in present))
  }

  /** `checkPlayerTypeLoaded`: construct now if the type needs no
      implementation or it is defined, otherwise poll again on a timer. */
  function CheckPlayerTypeLoaded(mediaType: string, present: set<string>): (o: Outcome)
    requires PLAYER in present
    ensures Sound(o, mediaType, present, {})
    ensures o.next != Constructed ==> o == Outcome(Waiting(TypeLoaded, OnTimer), None)
  {
    if mediaType != SourceType.HTML && mediaType !in present then
      Outcome(Waiting(TypeLoaded, OnTimer), None)
    else
      Outcome(Constructed, None)
  }

  /** `constructMedia`: the first instance to need an absent, unclaimed type
      implementation claims and fetches it; any other goes on to the check. */
  function ConstructMedia(mediaType: string, present: set<string>, loading: set<string>): (o: Outcome)
    requires PLAYER in present
    ensures Sound(o, mediaType, present, loading)
    ensures o.claim.Some? <==> mediaType != SourceType.HTML && mediaType !in present && mediaType !in loading
  {
    if mediaType != SourceType.HTML && mediaType !in present && mediaType !in loading then
      Outcome(Waiting(TypeLoaded, OnFetch), Some(mediaType))
    else
      CheckPlayerTypeLoaded(mediaType, present)
  }

  /** `isPlayerReady`: poll again on a timer until the player module is
      present, then go on to `constructMedia`. */
  function IsPlayerReady(mediaType: string, present: set<string>, loading: set<string>): (o: Outcome)
    ensures Sound(o, mediaType, present, loading)
    ensures PLAYER !in present ==> o == Outcome(Waiting(PlayerReady, OnTimer), None)
    ensures PLAYER in present ==>
      (o.claim.Some? <==> mediaType != SourceType.HTML && mediaType !in present && mediaType !in loading)
  {
    if PLAYER !in present then Outcome(Waiting(PlayerReady, OnTimer), None)
    else ConstructMedia(mediaType, present, loading)
  }

  /** The end of `_setup`: the first instance to find the player module absent
      and unclaimed claims and fetches it; any other goes to `isPlayerReady`. */
  function StartLoading(mediaType: string, present: set<string>, loading: set<string>): (o: Outcome)
    ensures Sound(o, mediaType, present, loading)
    ensures PLAYER !in present ==>
      (o.claim.Some? <==> MODULE !in loading) && (o.claim.Some? ==> o.claim.value == MODULE)
    ensures PLAYER in present ==>
      (o.claim.Some? <==> mediaType != SourceType.HTML && mediaType !in present && mediaType !in loading)
  {
    if PLAYER !in present && MODULE !in loading then
      Outcome(Waiting(PlayerReady, OnFetch), Some(MODULE))
    else
      IsPlayerReady(mediaType, present, loading)
  }

  /** Running a pending check, whether a timer or a fetch callback woke it. */
  function Resume(c: Check, mediaType: string, present: set<string>, loading: set<string>): (o: Outcome)
    requires c == TypeLoaded ==> PLAYER in present
    ensures Sound(o, mediaType, present, loading)
    ensures c == PlayerReady && PLAYER in present ==>
      (o.claim.Some? <==> mediaType != SourceType.HTML && mediaType !in present && mediaType !in loading)
    ensures c == TypeLoaded ==> o.claim.None?
  {
    match c
    case PlayerReady => IsPlayerReady(mediaType, present, loading)
    case TypeLoaded => CheckPlayerTypeLoaded(mediaType, present)
  }

  /** Once both names are defined, the next run of any check, and setup
      itself, construct the player. */
  lemma ConstructsOnceLoaded(c: Check, mediaType: string, present: set<string>, loading: set<string>)
    requires PLAYER in present && (mediaType == SourceType.HTML || mediaType in present)
    ensures Resume(c, mediaType, present, loading).next == Constructed
    ensures StartLoading(mediaType, present, loading).next == Constructed
  {
  }

  /** An instance that finds a dependency absent but already claimed (by
      itself or another instance) never fetches it: it polls on a timer. */
  lemma NonClaimantPolls(mediaType: string, present: set<string>, loading: set<string>)
    ensures MODULE in loading && PLAYER !in present ==>
      StartLoading(mediaType, present, loading) == Outcome(Waiting(PlayerReady, OnTimer), None)
    ensures PLAYER in present && mediaType != SourceType.HTML && mediaType in loading && mediaType !in present ==>
      && StartLoading(mediaType, present, loading) == Outcome(Waiting(TypeLoaded, OnTimer), None)
      && Resume(PlayerReady, mediaType, present, loading) == Outcome(Waiting(TypeLoaded, OnTimer), None)
  {
  }
}

/**
 * The presentation side of a spawned player: the configured size, the
 * style of the player's media element, the calls made on the player handle
 * and the guard in front of `destroy()` at teardown.
 */
module Presentation {
  import opened Wrappers

  /** A width or height as JavaScript holds it: text typed by the user, or
      a number (the user's, or a measured `offsetWidth`/`offsetHeight`). */
  datatype Dim = Text(text: string) | Number(n: nat)

  /** JavaScript truthiness of a size: "" and 0 are falsy. */
  predicate Truthy(d: Dim) {
    match d
    case Text(t) => t != ""
    case Number(n) => n != 0
  }

  /** `user || measured || fallback`, the defaulting of width and height. */
  function SizeDefault(user: Option<Dim>, measured: nat, fallback: string): (d: Dim)
    ensures user.Some? && Truthy(user.value) ==> d == user.value
    ensures !(user.Some? && Truthy(user.value)) && measured != 0 ==> d == Number(measured)
    ensures !(user.Some? && Truthy(user.value)) && measured == 0 ==> d == Text(fallback)
    ensures fallback != "" ==> Truthy(d)
  {
    if user.Some? && Truthy(user.value) then user.value
    else if measured != 0 then Number(measured)
    else Text(fallback)
  }

  /** The decimal digits of a number, as JavaScript's number-to-string gives them. */
  function Decimal(n: nat): (r: string)
    ensures |r| >= 1
    ensures IsDigits(r)
    decreases n
  {
    var digit := ('0' as int + n % 10) as char;
    if n < 10 then [digit] else Decimal(n / 10) + [digit]
  }

  /** A string made of decimal digits only. */
  predicate IsDigits(r: string) {
    forall i :: 0 <= i < |r| ==> '0' <= r[i] <= '9'
  }

  /** The number a string of decimal digits denotes. */
  function DigitsValue(r: string): nat
    requires IsDigits(r)
  {
    if r == [] then 0
    else DigitsValue(r[..|r| - 1]) * 10 + (r[|r| - 1] as int - '0' as int)
  }

  /** `Decimal` writes `n` itself, without leading zeros. */
  lemma {:induction false} DecimalDenotes(n: nat)
    ensures DigitsValue(Decimal(n)) == n
    ensures Decimal(n)[0] == '0' ==> n == 0
    decreases n
  {
    var r := Decimal(n);
    if n >= 10 {
      DecimalDenotes(n / 10);
      assert r[..|r| - 1] == Decimal(n / 10);
    }
  }

  /** For instance, a target rendered 640 by 360 pixels gives the sizes
      "640" and "360". */
  lemma DecimalExamples()
    ensures Decimal(640) == "640" && Decimal(360) == "360"
  {
    assert Decimal(6) == "6" && Decimal(64) == "64";
    assert Decimal(3) == "3" && Decimal(36) == "36";
  }

  /** The string a size turns into when it is concatenated with "px". */
  function Render(d: Dim): string {
    match d
    case Text(t) => t
    case Number(n) => Decimal(n)
  }

  /** The width, height and visibility of the player's media element. */
  datatype Style = Style(width: string, height: string, visibility: string)

  /** The collapsed, invisible surface a player has between intervals. */
  const Collapsed := Style("0px", "0px", "hidden")

  /** Calls made on a player handle, in order. */
  datatype Call = Controls(on: bool) | Play | Pause | Destroy

  /**
   * A player handle returned by `Popcorn.smart`: the selector and source it
   * was built from, the names of its members (the handle is an object whose
   * members are not visible here), the style of its media element and the
   * calls made on it.
   */
  datatype Player = Player(selector: string, source: string, members: set<string>,
                           media: Style, calls: seq<Call>)

  /** Shown surface: the configured size in pixels, visible. */
  function Shown(width: Dim, height: Dim): Style {
    Style(Render(width) + "px", Render(height) + "px", "visible")
  }

  /** Teardown's guard as written: destroy only when the handle has a member
      named `destory`. */
  predicate DestroyGuardAsWritten(popcorn: Option<Player>) {
    popcorn.Some? && "destory" in popcorn.value.members
  }

  /** Teardown's guard as evidently intended: destroy only when the handle
      has a member named `destroy`, the member it goes on to call. */
  predicate DestroyGuard(popcorn: Option<Player>) {
    popcorn.Some? && "destroy" in popcorn.value.members
  }

  /** A handle that has `destroy` and no `destory` member is never destroyed
      by the guard as written, though the corrected guard destroys it. */
  lemma DestroyGuardAsWrittenSkipsDestroy(p: Player)
    requires "destroy" in p.members && "destory" !in p.members
    ensures !DestroyGuardAsWritten(Some(p)) && DestroyGuard(Some(p))
  {
  }
}

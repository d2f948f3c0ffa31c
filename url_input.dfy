/**
 * The `UrlInput` component's validation state: the text in the input box,
 * a tri-state validity flag and the detected platform badge.
 *
 * Each React effect run is one atomic step, so typing a new value and the
 * effect that reacts to it together form `OnUrlChange`.
 */
module UrlInputComponent {
  import opened Wrappers
  import opened Strings
  import opened Utils

  /** The colour of the validity ring around the form. */
  datatype Ring = Green | Red

  class UrlInput {
    /** The URL constructor the component's helpers call. */
    const parse: UrlParser

    var url: string
    /** `null` before anything is typed, then the last validity verdict. */
    var isValid: Option<bool>
    var platform: Option<string>

    /**
     * What every step keeps: `isValid` is null exactly while the box is
     * empty and otherwise judges the current text; a valid URL's platform is
     * its classification; any badge is one of the six platform keys. After an
     * invalid URL the badge is whatever the last valid one left behind.
     */
    ghost predicate Valid()
      reads this
    {
      (isValid.None? <==> url == "") &&
      (isValid.Some? ==> isValid.value == IsValidUrl(parse, url)) &&
      (url == "" ==> platform.None?) &&
      (isValid == Some(true) ==> platform == GetPlatformFromUrl(parse, url)) &&
      (platform.None? || platform.value in PlatformKeys)
    }

    /** The three `useState` cells start as `''`, `null` and `null`. */
    constructor (parse: UrlParser)
      ensures Valid()
      ensures this.parse == parse
      ensures url == "" && isValid.None? && platform.None?
    {
      this.parse := parse;
      url := "";
      isValid := None;
      platform := None;
    }

    /**
     * `setUrl(u)` followed by the effect on `[url]`. An empty box clears both
     * indicators; otherwise validity is recomputed, and the platform only
     * when the URL is valid: an invalid URL leaves the previous badge.
     */
    method OnUrlChange(u: string)
      requires Valid()
      modifies this
      ensures Valid()
      ensures url == u
      ensures u == "" ==> isValid.None? && platform.None?
      ensures u != "" ==> isValid == Some(IsValidUrl(parse, u))
      ensures u != "" && IsValidUrl(parse, u) ==> platform == GetPlatformFromUrl(parse, u)
      ensures u != "" && !IsValidUrl(parse, u) ==> platform == old(platform)
    {
      url := u;
      if url == "" {
        isValid := None;
        platform := None;
        return;
      }
      var valid := IsValidUrl(parse, url);
      isValid := Some(valid);
      if valid {
        var detected := GetPlatformFromUrl(parse, url);
        platform := detected;
      }
    }

    /**
     * `handleSubmit`: the URL is forwarded to `onUrlSubmit` only when it is
     * marked valid and non-empty; nothing in the component changes either way.
     * In a consistent state whatever is forwarded is accepted by the URL
     * constructor.
     */
    method Submit() returns (forwarded: Option<string>)
      ensures forwarded.Some? <==> isValid == Some(true) && url != ""
      ensures forwarded.Some? ==> forwarded.value == url
      ensures Valid() && forwarded.Some? ==> IsValidUrl(parse, forwarded.value)
    {
      if isValid == Some(true) && url != "" {
        forwarded := Some(url);
      } else {
        forwarded := None;
      }
    }

    /** `isValid !== null`: the ring, green when valid and red otherwise. */
    function ValidityRing(): (r: Option<Ring>)
      reads this
      ensures r.Some? <==> isValid.Some?
      ensures r == Some(Green) <==> isValid == Some(true)
      ensures r == Some(Red) <==> isValid == Some(false)
    {
      match isValid
      case None => None
      case Some(ok) => Some(if ok then Green else Red)
    }

    /** `platform && <span>`: JavaScript truthiness hides an empty name too. */
    function Badge(): (b: Option<string>)
      reads this
      ensures b.Some? <==> platform.Some? && platform.value != ""
      ensures b.Some? ==> b == platform
    {
      if platform.Some? && platform.value != "" then platform else None
    }

    /** `isValid === false`: the "Please enter a valid URL" message. */
    predicate ErrorShown(): (r: bool)
      reads this
      ensures r <==> isValid.Some? && !isValid.value
    {
      isValid == Some(false)
    }

    /**
     * What the user sees, in terms of the text in the box: the ring appears
     * exactly when the box is non-empty and is red exactly when the text is
     * not a URL; the error message shows exactly for non-empty invalid text,
     * never for an empty box; the badge is shown exactly when a platform is
     * set.
     */
    lemma RenderMeaning()
      requires Valid()
      ensures ValidityRing().Some? <==> url != ""
      ensures ValidityRing() == Some(Red) <==> url != "" && !IsValidUrl(parse, url)
      ensures ErrorShown() <==> url != "" && !IsValidUrl(parse, url)
      ensures ErrorShown() <==> ValidityRing() == Some(Red)
      ensures Badge() == platform
    {
    }
  }

  /**
   * The stale badge: after a URL that classifies as youtube, typing any
   * non-empty invalid text shows the error message and still shows the
   * youtube badge.
   */
  method StaleBadge(parse: UrlParser, good: string, bad: string)
    returns (badge: Option<string>, error: bool)
    requires good != "" && GetPlatformFromUrl(parse, good) == Some("youtube")
    requires bad != "" && !IsValidUrl(parse, bad)
    ensures error && badge == Some("youtube")
  {
    var input := new UrlInput(parse);
    input.OnUrlChange(good);
    input.OnUrlChange(bad);
    input.RenderMeaning();
    badge := input.Badge();
    error := input.ErrorShown();
  }
}

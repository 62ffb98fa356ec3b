/** The deep-link value object: up to four platform-specific destinations
    (src/UrlShortener.Domain/DeepLinkTargets.cs). Being a datatype, two
    targets are equal exactly when their four fields are, as for the C#
    record. */
module DeepLinks {
  import opened Wrappers
  import opened Text

  datatype DeepLinkTargets = DeepLinkTargets(
    iosUrl: Option<string>,
    androidUrl: Option<string>,
    desktopUrl: Option<string>,
    fallbackUrl: Option<string>)
  {
    /** At least one of the four targets is neither null nor white space. */
    predicate HasAny() {
      || !IsBlank(iosUrl)
      || !IsBlank(androidUrl)
      || !IsBlank(desktopUrl)
      || !IsBlank(fallbackUrl)
    }

    /** The four targets in declaration order. */
    function Fields(): (fs: seq<Option<string>>)
      ensures |fs| == 4
    {
      [iosUrl, androidUrl, desktopUrl, fallbackUrl]
    }
  }

  /** The set has a target iff some field holds a character that is not
      white space. */
  lemma HasAnyIffSomeVisibleChar(d: DeepLinkTargets)
    ensures d.HasAny() <==>
      exists f, i :: 0 <= f < 4 && d.Fields()[f].Some? &&
        0 <= i < |d.Fields()[f].value| && !IsWhiteSpace(d.Fields()[f].value[i])
  {
    if d.HasAny() {
      var f := if !IsBlank(d.iosUrl) then 0 else if !IsBlank(d.androidUrl) then 1
        else if !IsBlank(d.desktopUrl) then 2 else 3;
      var i := VisibleChar(d.Fields()[f]);
    }
  }

  /** A white-space-only field counts as absent: replacing it by null does
      not change `HasAny`, whichever field it is. */
  lemma BlankFieldCountsAsAbsent(d: DeepLinkTargets, w: Option<string>)
    requires IsBlank(w)
    ensures d.(iosUrl := w).HasAny() == d.(iosUrl := None).HasAny()
    ensures d.(androidUrl := w).HasAny() == d.(androidUrl := None).HasAny()
    ensures d.(desktopUrl := w).HasAny() == d.(desktopUrl := None).HasAny()
    ensures d.(fallbackUrl := w).HasAny() == d.(fallbackUrl := None).HasAny()
  {
  }

  /** One non-blank field is enough, whatever the other three hold. */
  lemma AnyNonBlankFieldSuffices(d: DeepLinkTargets, s: string)
    requires !IsBlank(Some(s))
    ensures d.(iosUrl := Some(s)).HasAny()
    ensures d.(androidUrl := Some(s)).HasAny()
    ensures d.(desktopUrl := Some(s)).HasAny()
    ensures d.(fallbackUrl := Some(s)).HasAny()
  {
  }
}

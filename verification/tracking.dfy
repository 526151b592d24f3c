/** Classification of a VAST tag URL by the ad network that serves it. */
module Tracking {
  import opened Text

  /** The five names the classifier can give. */
  predicate IsNetworkName(s: string) {
    s in {"FilthySelection", "GameBuster", "AdButler", "YourAdExchange", "Unknown"}
  }

  /** `getAdNetworkFromTag`: an ordered chain of case-sensitive substring tests;
      the first that matches decides. */
  function GetAdNetworkFromTag(tagUrl: string): (r: string)
    ensures IsNetworkName(r)
    ensures r == "FilthySelection" <==> Contains(tagUrl, "filthyselection")
    ensures r == "GameBuster" <==>
      !Contains(tagUrl, "filthyselection")
      && (Contains(tagUrl, "doubleclick.net") || Contains(tagUrl, "googlesyndication"))
    ensures r == "AdButler" <==>
      !Contains(tagUrl, "filthyselection") && !Contains(tagUrl, "doubleclick.net")
      && !Contains(tagUrl, "googlesyndication") && Contains(tagUrl, "adbutler")
    ensures r == "Unknown" <==>
      !Contains(tagUrl, "filthyselection") && !Contains(tagUrl, "doubleclick.net")
      && !Contains(tagUrl, "googlesyndication") && !Contains(tagUrl, "adbutler")
      && !Contains(tagUrl, "youradexchange")
  {
    if Contains(tagUrl, "filthyselection") then "FilthySelection"
    else if Contains(tagUrl, "doubleclick.net") || Contains(tagUrl, "googlesyndication") then "GameBuster"
    else if Contains(tagUrl, "adbutler") then "AdButler"
    else if Contains(tagUrl, "youradexchange") then "YourAdExchange"
    else "Unknown"
  }

  /** A tag that names the first network wins over any other name it also contains. */
  lemma FirstMatchWins(prefix: string, suffix: string)
    ensures GetAdNetworkFromTag(prefix + "filthyselection" + suffix) == "FilthySelection"
  {
    var s := prefix + "filthyselection" + suffix;
    assert s[|prefix|..|prefix| + |"filthyselection"|] == "filthyselection";
    assert OccursAt(s, "filthyselection", |prefix|);
  }

  /** The test is case-sensitive: an upper-case spelling is not recognised. */
  lemma CaseSensitive()
    ensures GetAdNetworkFromTag("ADBUTLER") == "Unknown"
  {
    var s := "ADBUTLER";
    FirstCharAbsent(s, "filthyselection");
    FirstCharAbsent(s, "doubleclick.net");
    FirstCharAbsent(s, "googlesyndication");
    FirstCharAbsent(s, "adbutler");
    FirstCharAbsent(s, "youradexchange");
  }
}

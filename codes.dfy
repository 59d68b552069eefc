/** Referral codes: the `start` parameter of a user's referral link is `ref_` followed by
    the user's Telegram id, and `/use-referral` recovers the id with JavaScript's
    `String.prototype.replace(pattern, '')`, which removes only the FIRST occurrence of
    a string pattern, wherever it stands. */
module Codes {
  import opened Models

  const RefPrefix := "ref_"
  const BotLink := "https://t.me/jackpot_ton_bot/Jackpot_ton?start="

  /** `pat` occurs in `s` starting at index `i`. */
  predicate OccursAt(s: string, pat: string, i: nat) {
    i + |pat| <= |s| && s[i..i + |pat|] == pat
  }

  /** The first occurrence of `pat` in `s` at index `from` or later. */
  function IndexFrom(s: string, pat: string, from: nat): (k: Option<nat>)
    requires from <= |s|
    ensures k.Some? ==> from <= k.value && OccursAt(s, pat, k.value)
    ensures k.Some? ==> forall j :: from <= j < k.value ==> !OccursAt(s, pat, j)
    ensures k.None? ==> forall j :: from <= j <= |s| ==> !OccursAt(s, pat, j)
    decreases |s| - from
  {
    if OccursAt(s, pat, from) then Some(from)
    else if from == |s| then None
    else IndexFrom(s, pat, from + 1)
  }

  /** `s.indexOf(pat)`, as an option. */
  function IndexOf(s: string, pat: string): (k: Option<nat>)
    ensures k.Some? ==> OccursAt(s, pat, k.value) && forall j :: 0 <= j < k.value ==> !OccursAt(s, pat, j)
    ensures k.None? ==> forall j :: 0 <= j <= |s| ==> !OccursAt(s, pat, j)
  {
    IndexFrom(s, pat, 0)
  }

  /** `s.replace(pat, '')`: the first occurrence of `pat` is cut out; without one, `s` is kept. */
  function RemoveFirst(s: string, pat: string): (r: string)
    ensures (forall j :: 0 <= j <= |s| ==> !OccursAt(s, pat, j)) ==> r == s
    ensures (exists i: nat :: OccursAt(s, pat, i)) ==>
      exists i: nat ::
        && OccursAt(s, pat, i)
        && (forall j: nat :: j < i ==> !OccursAt(s, pat, j))
        && r == s[..i] + s[i + |pat|..]
  {
    match IndexOf(s, pat)
    case None => s
    case Some(i) => s[..i] + s[i + |pat|..]
  }

  /** The `start` parameter of a user's referral link (`/referral-link`). */
  function ReferralCode(telegramId: string): string {
    RefPrefix + telegramId
  }

  /** The referral link handed out to a user. */
  function ReferralLink(telegramId: string): (link: string)
    ensures |BotLink| <= |link| && link[..|BotLink|] == BotLink
    ensures link[|BotLink|..] == ReferralCode(telegramId)
  {
    BotLink + ReferralCode(telegramId)
  }

  /** The Telegram id that `/use-referral` looks the referrer up by. */
  function ReferrerTelegramId(referralCode: string): string {
    RemoveFirst(referralCode, RefPrefix)
  }

  /** The text after `start=` in a user's referral link leads back to that user's
      Telegram id. */
  lemma ReferralLinkLeadsBack(telegramId: string)
    ensures BotLink[|BotLink| - 6..] == "start="
    ensures var link := ReferralLink(telegramId);
      |BotLink| <= |link| && ReferrerTelegramId(link[|BotLink|..]) == telegramId
  {
    ReferralRoundTrip(telegramId);
  }

  /** Every referral code handed out leads back to its owner's Telegram id, whatever the id
      contains (a later `ref_` inside the id is left alone). */
  lemma ReferralRoundTrip(telegramId: string)
    ensures ReferrerTelegramId(ReferralCode(telegramId)) == telegramId
  {
    var code := ReferralCode(telegramId);
    assert OccursAt(code, RefPrefix, 0) by { assert code[0..|RefPrefix|] == RefPrefix; }
    var k := IndexOf(code, RefPrefix);
    assert k == Some(0);
    assert code[|RefPrefix|..] == telegramId;
  }

  /** A code without `ref_` is taken as the Telegram id itself. */
  lemma BareCodeIsId(referralCode: string)
    requires forall j :: 0 <= j <= |referralCode| ==> !OccursAt(referralCode, RefPrefix, j)
    ensures ReferrerTelegramId(referralCode) == referralCode
  {
  }

  /** The replacement is not anchored: `xref_1` yields `x1`. */
  lemma InnerPrefixIsRemoved()
    ensures ReferrerTelegramId("xref_1") == "x1"
  {
    var s := "xref_1";
    assert !OccursAt(s, RefPrefix, 0) by { assert s[0] != RefPrefix[0]; }
    assert OccursAt(s, RefPrefix, 1) by { assert s[1..5] == RefPrefix; }
    assert IndexOf(s, RefPrefix) == Some(1);
    assert s[..1] + s[5..] == "x1";
  }
}

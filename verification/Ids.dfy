/** Identifier shapes: account ids, rate keys and target keys. */
module Ids {
  import opened Domain

  function PlatformName(p: Platform): string {
    match p
    case Reddit => "reddit"
    case Mastodon => "mastodon"
    case Bluesky => "bluesky"
    case Twitter => "twitter"
    case Medium => "medium"
    case Substack => "substack"
    case Linkedin => "linkedin"
    case Facebook => "facebook"
    case Instagram => "instagram"
    case Threads => "threads"
    case Youtube => "youtube"
    case Tiktok => "tiktok"
    case Discord => "discord"
    case Telegram => "telegram"
    case Pinterest => "pinterest"
    case Lemmy => "lemmy"
    case Nostr => "nostr"
  }

  /** `account_id`: the slug and the random suffix are whatever the minting produced. */
  function AccountId(p: Platform, slug: string, suffix: string): Id {
    "acct_" + PlatformName(p) + "_" + slug + "_" + suffix
  }

  /** The test of `list_open`: does the id start with `acct_<platform>_`? */
  predicate HasPlatformPrefix(id: Id, platform: string) {
    "acct_" + platform + "_" <= id
  }

  function RateKey(account: Id, verb: ActionType): string {
    account + ":" + VerbName(verb)
  }

  function TargetKey(p: Platform, target: TargetRef): string {
    PlatformName(p) + ":" + target.raw
  }

  /** Words that share a separator-terminated prefix are the same word. */
  lemma SameWordBeforeSeparator(u: string, v: string, sep: char, tail: string)
    requires sep !in u && sep !in v
    requires u + [sep] <= v + [sep] + tail
    ensures u == v
  {
    var left, right := u + [sep], v + [sep] + tail;
    assert forall i :: 0 <= i < |left| ==> left[i] == right[i];
    assert left[|u|] == sep && right[|v|] == sep;
    assert |u| == |v|;
    assert forall i :: 0 <= i < |u| ==> u[i] == left[i] == right[i] == v[i];
  }

  lemma PlatformNamesAreWords(p: Platform, q: Platform)
    ensures '_' !in PlatformName(p) && ':' !in PlatformName(p)
    ensures PlatformName(p) == PlatformName(q) ==> p == q
  {
    assert |PlatformName(p)| >= 5 && |PlatformName(q)| >= 5;
    if PlatformName(p) == PlatformName(q) {
      assert PlatformName(p)[0] == PlatformName(q)[0] && PlatformName(p)[1] == PlatformName(q)[1];
    }
  }

  /** The prefix test picks exactly the accounts of the named platform, whatever their handles are. */
  lemma PrefixMatchesPlatform(p: Platform, q: Platform, slug: string, suffix: string)
    ensures HasPlatformPrefix(AccountId(q, slug, suffix), PlatformName(p)) <==> p == q
  {
    PlatformNamesAreWords(p, q);
    PlatformNamesAreWords(q, p);
    PrefixIsWord(PlatformName(p), PlatformName(q), slug, suffix);
  }

  lemma PrefixIsWord(u: string, v: string, slug: string, suffix: string)
    requires '_' !in u && '_' !in v
    ensures "acct_" + u + "_" <= "acct_" + v + "_" + slug + "_" + suffix <==> u == v
  {
    var wanted, id, tail := "acct_" + u + "_", "acct_" + v + "_" + slug + "_" + suffix, slug + "_" + suffix;
    assert id == "acct_" + (v + "_" + tail) && wanted == "acct_" + (u + "_");
    if wanted <= id {
      var left, right := u + ['_'], v + ['_'] + tail;
      assert wanted[5..] == left && id[5..] == right;
      assert forall i :: 0 <= i < |left| ==> left[i] == wanted[5 + i] == id[5 + i] == right[i];
      SameWordBeforeSeparator(u, v, '_', tail);
    }
  }

  lemma VerbNamesDiffer(v: ActionType, w: ActionType)
    requires VerbName(v) == VerbName(w)
    ensures v == w
  {
    assert |VerbName(v)| >= 3;
    assert VerbName(v)[2] == VerbName(w)[2] && VerbName(v)[0] == VerbName(w)[0];
  }

  /** Two (account, verb) pairs never share a rate list, even if account ids contain colons. */
  lemma RateKeyInjective(a: Id, v: ActionType, b: Id, w: ActionType)
    requires RateKey(a, v) == RateKey(b, w)
    ensures a == b && v == w
  {
    var k, vn, wn := RateKey(a, v), VerbName(v), VerbName(w);
    assert ':' !in vn && ':' !in wn;
    assert k[|a|] == ':' && k[|b|] == ':';
    assert |a| == |b|;
    assert a == k[..|a|] == b;
    assert vn == k[|a| + 1..] == wn;
    VerbNamesDiffer(v, w);
  }

  /** Two targets share a coordination list if and only if they are the same text on the same platform. */
  lemma TargetKeyInjective(p: Platform, t: TargetRef, q: Platform, u: TargetRef)
    ensures TargetKey(p, t) == TargetKey(q, u) <==> p == q && t.raw == u.raw
  {
    var k, m, n := TargetKey(p, t), PlatformName(p), PlatformName(q);
    PlatformNamesAreWords(p, q);
    PlatformNamesAreWords(q, p);
    if k == TargetKey(q, u) {
      assert k[|m|] == ':' && k[|n|] == ':';
      assert |m| == |n|;
      assert m == k[..|m|] == n;
      assert t.raw == k[|m| + 1..] == u.raw;
    }
  }
}

/** Image addresses on the platform's content delivery network:
    `https://cdn.discordapp.com/<folder>/<id>/<hash><suffix>`. */
module Cdn {
  import opened Text

  const CdnBase: string := "https://cdn.discordapp.com/"

  function CdnUrl(folder: string, id: Snowflake, hash: string, suffix: string): string {
    CdnBase + folder + "/" + DecimalString(id) + "/" + hash + suffix
  }

  /** The id and the hash can be read back from an address: two addresses in
      the same folder with the same suffix are equal only for equal ids and hashes. */
  lemma CdnUrlInjective(folder: string, suffix: string, id1: Snowflake, hash1: string,
                        id2: Snowflake, hash2: string)
    requires CdnUrl(folder, id1, hash1, suffix) == CdnUrl(folder, id2, hash2, suffix)
    ensures id1 == id2 && hash1 == hash2
  {
    var p := CdnBase + folder + "/";
    var d1, d2 := DecimalString(id1), DecimalString(id2);
    var t1, t2 := "/" + hash1 + suffix, "/" + hash2 + suffix;
    assert CdnUrl(folder, id1, hash1, suffix) == p + (d1 + t1);
    assert CdnUrl(folder, id2, hash2, suffix) == p + (d2 + t2);
    assert d1 + t1 == d2 + t2 by {
      assert (p + (d1 + t1))[|p|..] == d1 + t1;
      assert (p + (d2 + t2))[|p|..] == d2 + t2;
    }
    DigitsThenSlash(d1, t1, d2, t2);
    DecimalInjective(id1, id2);
    assert hash1 + suffix == t1[1..] && hash2 + suffix == t2[1..];
    assert hash1 == (hash1 + suffix)[..|hash1 + suffix| - |suffix|];
    assert hash2 == (hash2 + suffix)[..|hash2 + suffix| - |suffix|];
  }

  /** A run of digits ended by a slash is determined by the whole string. */
  lemma DigitsThenSlash(d1: string, t1: string, d2: string, t2: string)
    requires AllDigits(d1) && AllDigits(d2) && t1 != [] && t2 != [] && t1[0] == '/' && t2[0] == '/'
    requires d1 + t1 == d2 + t2
    ensures d1 == d2 && t1 == t2
  {
    LeadingDigitsOf(d1, t1);
    LeadingDigitsOf(d2, t2);
    assert d1 == (d1 + t1)[..|d1|];
    assert d2 == (d2 + t2)[..|d2|];
    assert t1 == (d1 + t1)[|d1|..];
    assert t2 == (d2 + t2)[|d2|..];
  }

  /** The length of the run of digits a string starts with. */
  function LeadingDigits(s: string): nat {
    if s != [] && IsDigit(s[0]) then 1 + LeadingDigits(s[1..]) else 0
  }

  lemma {:induction false} LeadingDigitsOf(d: string, t: string)
    requires AllDigits(d) && t != [] && !IsDigit(t[0])
    ensures LeadingDigits(d + t) == |d|
  {
    if d != [] {
      assert (d + t)[1..] == d[1..] + t;
      LeadingDigitsOf(d[1..], t);
    }
  }
}

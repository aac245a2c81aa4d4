/** The keyword rules applied to a user's text: the sensitivity level and
  * the category of a chat message, and the "contains user data" flag set on
  * every stored message. Each rule lower-cases the text and asks whether any
  * of its keywords occurs in it as a substring. */
module Classifier {
  import opened Text

  const SensitiveKeywords: seq<string> := ["password", "pin", "credit card", "bank", "nid", "account number", "cvv"]
  const CriticalKeywords: seq<string> := ["payment", "bill", "money", "expire", "disconnect", "due"]
  const HighKeywords: seq<string> := ["internet", "connection", "router", "speed", "not working", "problem", "issue"]
  const MidKeywords: seq<string> := ["package", "subscription", "plan", "upgrade", "movie", "server"]

  const BillingWords: seq<string> := ["bill", "payment", "money", "due", "pay"]
  const TechnicalWords: seq<string> := ["internet", "connection", "router", "speed", "not working"]
  const PackageWords: seq<string> := ["package", "plan", "subscription", "upgrade"]
  const EntertainmentWords: seq<string> := ["movie", "server", "ftp", "ott", "stream"]
  const AccountWords: seq<string> := ["account", "user id", "profile", "details"]

  const UserDataKeywords: seq<string> :=
    ["password", "credit card", "ssn", "social security", "bank account", "pin", "cvv", "passport"]

  /** `any(k in text for k in words)`. */
  predicate AnyIn(words: seq<string>, text: string) {
    exists i :: 0 <= i < |words| && Contains(text, words[i])
  }

  /** The level of a message: the first of sensitive, critical, high and mid
    * whose keywords occur, else low. */
  function ClassifyLevel(message: string): (r: string)
    ensures r in ["sensitive", "critical", "high", "mid", "low"]
    ensures r == "sensitive" <==> AnyIn(SensitiveKeywords, Lower(message))
    ensures r == "critical" <==>
      !AnyIn(SensitiveKeywords, Lower(message)) && AnyIn(CriticalKeywords, Lower(message))
    ensures r == "high" <==>
      !AnyIn(SensitiveKeywords, Lower(message)) && !AnyIn(CriticalKeywords, Lower(message)) &&
      AnyIn(HighKeywords, Lower(message))
    ensures r == "mid" <==>
      !AnyIn(SensitiveKeywords, Lower(message)) && !AnyIn(CriticalKeywords, Lower(message)) &&
      !AnyIn(HighKeywords, Lower(message)) && AnyIn(MidKeywords, Lower(message))
    ensures r == "low" <==>
      !AnyIn(SensitiveKeywords, Lower(message)) && !AnyIn(CriticalKeywords, Lower(message)) &&
      !AnyIn(HighKeywords, Lower(message)) && !AnyIn(MidKeywords, Lower(message))
  {
    var m := Lower(message);
    if AnyIn(SensitiveKeywords, m) then "sensitive"
    else if AnyIn(CriticalKeywords, m) then "critical"
    else if AnyIn(HighKeywords, m) then "high"
    else if AnyIn(MidKeywords, m) then "mid"
    else "low"
  }

  /** The category of a message: the first of billing, technical, packages,
    * entertainment and account whose words occur, else general. */
  function DetectCategory(message: string): (r: string)
    ensures r in ["billing", "technical", "packages", "entertainment", "account", "general"]
    ensures r == "billing" <==> AnyIn(BillingWords, Lower(message))
    ensures r == "technical" <==>
      !AnyIn(BillingWords, Lower(message)) && AnyIn(TechnicalWords, Lower(message))
    ensures r == "packages" <==>
      !AnyIn(BillingWords, Lower(message)) && !AnyIn(TechnicalWords, Lower(message)) &&
      AnyIn(PackageWords, Lower(message))
    ensures r == "entertainment" <==>
      !AnyIn(BillingWords, Lower(message)) && !AnyIn(TechnicalWords, Lower(message)) &&
      !AnyIn(PackageWords, Lower(message)) && AnyIn(EntertainmentWords, Lower(message))
    ensures r == "account" <==>
      !AnyIn(BillingWords, Lower(message)) && !AnyIn(TechnicalWords, Lower(message)) &&
      !AnyIn(PackageWords, Lower(message)) && !AnyIn(EntertainmentWords, Lower(message)) &&
      AnyIn(AccountWords, Lower(message))
    ensures r == "general" <==>
      !AnyIn(BillingWords, Lower(message)) && !AnyIn(TechnicalWords, Lower(message)) &&
      !AnyIn(PackageWords, Lower(message)) && !AnyIn(EntertainmentWords, Lower(message)) &&
      !AnyIn(AccountWords, Lower(message))
  {
    var m := Lower(message);
    if AnyIn(BillingWords, m) then "billing"
    else if AnyIn(TechnicalWords, m) then "technical"
    else if AnyIn(PackageWords, m) then "packages"
    else if AnyIn(EntertainmentWords, m) then "entertainment"
    else if AnyIn(AccountWords, m) then "account"
    else "general"
  }

  /** Whether a message's text mentions sensitive user data: some keyword
    * occurs at some position of the lower-cased text. */
  function DetectUserData(content: string): (r: bool)
    ensures r <==> exists i, p :: 0 <= i < |UserDataKeywords| && OccursAt(Lower(content), UserDataKeywords[i], p)
  {
    AnyInIffOccurs(UserDataKeywords, Lower(content));
    assert AnyIn(UserDataKeywords, Lower(content)) <==>
      exists i, p :: 0 <= i < |UserDataKeywords| && OccursAt(Lower(content), UserDataKeywords[i], p);
    AnyIn(UserDataKeywords, Lower(content))
  }

  /** Some word is in the text exactly when some word occurs at some
    * position of it. */
  lemma AnyInIffOccurs(words: seq<string>, text: string)
    ensures AnyIn(words, text) <==> exists i, p :: 0 <= i < |words| && OccursAt(text, words[i], p)
  {
    forall i | 0 <= i < |words| ensures Contains(text, words[i]) <==> exists p :: OccursAt(text, words[i], p) {
      ContainsIffOccurs(text, words[i]);
    }
  }

  // ------------------------------------------------------------- properties

  /** Lower-casing the text first changes none of the three results. */
  lemma CaseInsensitive(s: string)
    ensures ClassifyLevel(Lower(s)) == ClassifyLevel(s)
    ensures DetectCategory(Lower(s)) == DetectCategory(s)
    ensures DetectUserData(Lower(s)) == DetectUserData(s)
  {
    LowerIdempotent(s);
  }

  /** The empty text has no keyword: level low, category general, no user data. */
  lemma EmptyText()
    ensures ClassifyLevel("") == "low"
    ensures DetectCategory("") == "general"
    ensures !DetectUserData("")
  {
    assert Lower("") == "";
  }

  /** Lower-casing distributes over concatenation. */
  lemma LowerConcat(a: string, b: string)
    ensures Lower(a + b) == Lower(a) + Lower(b)
  {
    var l := Lower(a) + Lower(b);
    assert forall i :: 0 <= i < |a + b| ==> Lower(a + b)[i] == l[i] by {
      forall i | 0 <= i < |a + b| ensures Lower(a + b)[i] == l[i] {
        if i < |a| { assert (a + b)[i] == a[i]; } else { assert (a + b)[i] == b[i - |a|]; }
      }
    }
  }

  /** A lower-case keyword inside any text, even inside a longer word, is
    * found. */
  lemma KeywordAnywhere(a: string, k: string, b: string, words: seq<string>, i: int)
    requires 0 <= i < |words| && words[i] == k && Lower(k) == k
    ensures AnyIn(words, Lower(a + k + b))
  {
    LowerConcat(a, k);
    LowerConcat(a + k, b);
    assert StartsWith(k, k);
    assert Contains(k, k);
    ContainsInside(Lower(a), k, Lower(b), k);
  }

  /** The sensitive group comes first: a text holding "password" is
    * sensitive whatever else it holds (a bill, a router, a package). */
  lemma SensitiveWins(a: string, b: string)
    ensures ClassifyLevel(a + "password" + b) == "sensitive"
  {
    KeywordAnywhere(a, "password", b, SensitiveKeywords, 0);
  }

  /** Any critical keyword, anywhere, decides the level whenever no
    * sensitive keyword is present. */
  lemma CriticalUnlessSensitive(a: string, b: string, i: int)
    requires 0 <= i < |CriticalKeywords|
    requires !AnyIn(SensitiveKeywords, Lower(a + CriticalKeywords[i] + b))
    ensures ClassifyLevel(a + CriticalKeywords[i] + b) == "critical"
  {
    var k := CriticalKeywords[i];
    assert Lower(k) == k by {
      assert forall j :: 0 <= j < |k| ==> !('A' <= k[j] <= 'Z');
      LowerOfLowerCase(k);
    }
    KeywordAnywhere(a, k, b, CriticalKeywords, i);
  }

  /** "pay" inside "payment" or any longer word makes the category billing. */
  lemma PayInsideWord(a: string, b: string)
    ensures DetectCategory(a + "pay" + b) == "billing"
  {
    KeywordAnywhere(a, "pay", b, BillingWords, 4);
  }

  /** Any of the eight user-data keywords anywhere in the text sets the
    * flag. */
  lemma UserDataAnywhere(a: string, b: string, i: int)
    requires 0 <= i < |UserDataKeywords|
    ensures DetectUserData(a + UserDataKeywords[i] + b)
  {
    var k := UserDataKeywords[i];
    assert Lower(k) == k by {
      assert forall j :: 0 <= j < |k| ==> !('A' <= k[j] <= 'Z');
      LowerOfLowerCase(k);
    }
    KeywordAnywhere(a, k, b, UserDataKeywords, i);
  }
}

// Generated user names (src/auth/account/username-generator.ts, src/auth/auth.config.ts).
module Usernames {
  import opened Decimals
  import opened TextRuns

  const USERNAME_MIN_LENGTH := 3
  const USERNAME_MAX_LENGTH := 30
  const SHORT_NAME_PREFIX := "user"

  predicate Allowed(c: char) {
    'a' <= c <= 'z' || IsDigit(c) || c == '.' || c == '_' || c == '-'
  }

  predicate IsHex(s: string) {
    forall c :: c in s ==> IsDigit(c) || 'a' <= c <= 'f'
  }

  // `replace(/[^a-z0-9._-]+/g, '')`.
  function Clean(s: string): (r: string)
    ensures |r| <= |s| && forall c :: c in r ==> Allowed(c)
    ensures (forall c :: c in s ==> Allowed(c)) ==> r == s
  {
    if s == "" then ""
    else if Allowed(s[0]) then
      assert (forall c :: c in s ==> Allowed(c)) ==> forall c :: c in s[1..] ==> Allowed(c);
      [s[0]] + Clean(s[1..])
    else Clean(s[1..])
  }

  // `slice(0, n)`.
  function Slice(s: string, n: nat): string {
    if |s| <= n then s else s[..n]
  }

  predicate ValidUsername(name: string) {
    3 <= |name| <= 30 && forall c :: c in name ==> Allowed(c)
  }

  // `lower` is `toLowerCase`, whatever it does outside ASCII.
  function BaseUsernameFromEmail(lower: string -> string, email: string): (base: string)
    ensures ValidUsername(base)
  {
    var localPart := Split(email, '@')[0];
    var cleaned := Slice(Clean(lower(Split(localPart, '+')[0])), USERNAME_MAX_LENGTH);
    if |cleaned| >= USERNAME_MIN_LENGTH then cleaned
    else Slice(SHORT_NAME_PREFIX + cleaned, USERNAME_MAX_LENGTH)
  }

  function Suffix(time: nat, rand: string): string {
    "_" + Decimal(time) + "_" + rand
  }

  function GenerateUsername(lower: string -> string, email: string, time: nat, rand: string): string {
    var suffix := Suffix(time, rand);
    var maxBaseLength := if |suffix| <= USERNAME_MAX_LENGTH then USERNAME_MAX_LENGTH - |suffix| else 0;
    Slice(Slice(BaseUsernameFromEmail(lower, email), maxBaseLength) + suffix, USERNAME_MAX_LENGTH)
  }

  // ---------- What cleaning keeps ----------

  // The alphabet of a name: small letters, digits, and `-`, `.` and `_`, by their ASCII codes.
  lemma AllowedIff(c: char)
    ensures var code := c as int;
            Allowed(c) <==> 97 <= code <= 122 || 48 <= code <= 57 || code == 45 || code == 46 || code == 95
  {
  }

  // Cleaning goes character by character, and keeps the order.
  lemma {:induction false} CleanAppend(s: string, t: string)
    ensures Clean(s + t) == Clean(s) + Clean(t)
  {
    if s == "" {
      assert s + t == t;
    } else {
      assert (s + t)[0] == s[0] && (s + t)[1..] == s[1..] + t;
      CleanAppend(s[1..], t);
    }
  }

  lemma CleanOne(c: char)
    ensures Clean([c]) == if Allowed(c) then [c] else ""
  {
    assert [c][1..] == "";
  }

  // A disallowed character anywhere is dropped, and nothing else.
  lemma CleanDrops(a: string, c: char, b: string)
    requires !Allowed(c)
    ensures Clean(a + [c] + b) == Clean(a + b)
  {
    CleanAppend(a + [c], b);
    CleanAppend(a, [c]);
    CleanOne(c);
    CleanAppend(a, b);
    assert Clean(a) + "" == Clean(a);
  }

  // ---------- Bounds and alphabet ----------

  // Every generated name is a valid one that needs no escaping, for every email, time and random suffix; it
  // is cut only when the base and the suffix together are longer than the bound.
  lemma GeneratedIsValid(lower: string -> string, email: string, time: nat, rand: string)
    requires IsHex(rand)
    ensures ValidUsername(GenerateUsername(lower, email, time, rand))
    ensures var whole := |BaseUsernameFromEmail(lower, email)| + |Suffix(time, rand)|;
            |GenerateUsername(lower, email, time, rand)| ==
            if whole < USERNAME_MAX_LENGTH then whole else USERNAME_MAX_LENGTH
  {
    var suffix := Suffix(time, rand);
    assert |Decimal(time)| >= 1 && |suffix| >= 3;
    assert forall c :: c in suffix ==> c == '_' || c in Decimal(time) || c in rand;
  }

  // A name is the head of its base, as long as there is room, and the suffix; a suffix that does not fit is cut.
  lemma GeneratedKeepsBase(lower: string -> string, email: string, time: nat, rand: string)
    ensures var base, suffix, name :=
              BaseUsernameFromEmail(lower, email), "_" + Decimal(time) + "_" + rand,
              GenerateUsername(lower, email, time, rand);
            if |suffix| > 30 then name == suffix[..30]
            else if |base| + |suffix| <= 30 then name == base + suffix
            else name == base[..30 - |suffix|] + suffix
  {
  }

  // ---------- What the base keeps of the address ----------

  lemma {:induction false} SplitHead(local: string, rest: string, sep: char)
    requires sep !in local && (rest == "" || rest[0] == sep)
    ensures Split(local + rest, sep)[0] == local
  {
    SplitRun(local, rest, sep);
    assert Split(rest, sep)[0] == "" && local + "" == local;
  }

  // Neither the domain nor a tag after `+` matters.
  lemma TagAndDomainIgnored(lower: string -> string, local: string, tag: string, domain: string)
    requires '@' !in local && '+' !in local && '@' !in tag && (tag == "" || tag[0] == '+')
    ensures BaseUsernameFromEmail(lower, local + tag + "@" + domain) == BaseUsernameFromEmail(lower, local)
  {
    assert local + tag + "@" + domain == (local + tag) + ("@" + domain);
    SplitHead(local + tag, "@" + domain, '@');
    SplitHead(local, tag, '+');
    SplitHead(local, "", '@');
    SplitHead(local, "", '+');
    assert local + "" == local;
  }

  // A local part that is of allowed characters once lower-cased is its own base, so lower-cased, up to the bounds.
  lemma AllowedLocalPartIsKept(lower: string -> string, local: string, tag: string, domain: string)
    requires '@' !in local && '+' !in local && forall c :: c in lower(local) ==> Allowed(c)
    requires '@' !in tag && (tag == "" || tag[0] == '+')
    ensures var base, small := BaseUsernameFromEmail(lower, local + tag + "@" + domain), lower(local);
            && (|small| < 3 ==> base == "user" + small)
            && (3 <= |small| <= 30 ==> base == small)
            && (30 < |small| ==> base == small[..30])
  {
    TagAndDomainIgnored(lower, local, tag, domain);
    BaseOfLocal(lower, local);
  }

  // The local part counts only as it is lower-cased and cleaned, in this order.
  lemma BaseOfLocal(lower: string -> string, local: string)
    requires '@' !in local && '+' !in local
    ensures var cleaned := Clean(lower(local));
            BaseUsernameFromEmail(lower, local) ==
            if |cleaned| < 3 then "user" + cleaned else if |cleaned| <= 30 then cleaned else cleaned[..30]
  {
    SplitHead(local, "", '@');
    SplitHead(local, "", '+');
    assert local + "" == local;
  }

  // Inserting a disallowed character anywhere in the local part changes nothing.
  lemma DisallowedIsDropped(lower: string -> string, a: string, c: char, b: string, tag: string, domain: string)
    requires forall x :: x in a + b ==> x != '@' && x != '+'
    requires !Allowed(c) && c != '@' && c != '+'
    requires lower(a + [c] + b) == a + [c] + b && lower(a + b) == a + b
    requires '@' !in tag && (tag == "" || tag[0] == '+')
    ensures BaseUsernameFromEmail(lower, a + [c] + b + tag + "@" + domain) ==
            BaseUsernameFromEmail(lower, a + b + tag + "@" + domain)
  {
    assert forall x :: x in a + [c] + b ==> x in a + b || x == c;
    TagAndDomainIgnored(lower, a + [c] + b, tag, domain);
    TagAndDomainIgnored(lower, a + b, tag, domain);
    BaseOfLocal(lower, a + [c] + b);
    BaseOfLocal(lower, a + b);
    CleanDrops(a, c, b);
  }

  // ---------- Reading the suffix back ----------

  // Everything after the last underscore, and what stands before that underscore.
  function AfterLast(name: string): string {
    if name == "" || name[|name| - 1] == '_' then "" else AfterLast(name[..|name| - 1]) + [name[|name| - 1]]
  }

  function BeforeLast(name: string): string {
    if name == "" then "" else if name[|name| - 1] == '_' then name[..|name| - 1] else BeforeLast(name[..|name| - 1])
  }

  // Parsed from the right: the time, then the random suffix.
  function Recover(name: string): (string, string) {
    (AfterLast(BeforeLast(name)), AfterLast(name))
  }

  lemma {:induction false} LastOf(head: string, tail: string)
    requires '_' !in tail
    ensures AfterLast(head + "_" + tail) == tail && BeforeLast(head + "_" + tail) == head
    decreases |tail|
  {
    var name := head + "_" + tail;
    if tail == "" {
      assert name[..|name| - 1] == head;
    } else {
      var n := |tail| - 1;
      assert name[..|name| - 1] == head + "_" + tail[..n] && name[|name| - 1] == tail[n];
      LastOf(head, tail[..n]);
      assert tail[..n] + [tail[n]] == tail;
    }
  }

  predicate Fits(time: nat, rand: string) {
    |Suffix(time, rand)| <= USERNAME_MAX_LENGTH
  }

  lemma Regrouped(b: string, time: string, rand: string)
    ensures b + ("_" + time + "_" + rand) == b + "_" + time + "_" + rand
  {
  }

  lemma RecoverGenerated(lower: string -> string, email: string, time: nat, rand: string)
    requires IsHex(rand) && Fits(time, rand)
    ensures Recover(GenerateUsername(lower, email, time, rand)) == (Decimal(time), rand)
  {
    var suffix := Suffix(time, rand);
    var b := Slice(BaseUsernameFromEmail(lower, email), USERNAME_MAX_LENGTH - |suffix|);
    GeneratedKeepsBase(lower, email, time, rand);
    Regrouped(b, Decimal(time), rand);
    LastOf(b + "_" + Decimal(time), rand);
    LastOf(b, Decimal(time));
  }

  // Pairs that fit and differ give different names, whatever the emails.
  lemma DistinctPairsDistinctNames(lower: string -> string, email1: string, time1: nat, rand1: string,
                                   email2: string, time2: nat, rand2: string)
    requires IsHex(rand1) && Fits(time1, rand1) && IsHex(rand2) && Fits(time2, rand2)
    requires GenerateUsername(lower, email1, time1, rand1) == GenerateUsername(lower, email2, time2, rand2)
    ensures time1 == time2 && rand1 == rand2
  {
    RecoverGenerated(lower, email1, time1, rand1);
    RecoverGenerated(lower, email2, time2, rand2);
    DecimalInjective(time1, time2);
  }

  // ---------- Against suffixes of any length ----------

  // No other pair, of any length, ever gives the name of this one.
  ghost predicate Distinctive(lower: string -> string, time: nat, rand: string) {
    forall email1, email2, time2: nat, rand2 ::
      IsHex(rand2) && GenerateUsername(lower, email1, time, rand) == GenerateUsername(lower, email2, time2, rand2)
      ==> time2 == time && rand2 == rand
  }

  // A cut suffix never equals a name that kept some of its base: the cut name has at most two underscores, at
  // its head and after its time, and the other one has an underscore after its base and one after its time.
  lemma CutNeverMeetsWhole(lower: string -> string, email: string, time: nat, rand: string,
                           email2: string, time2: nat, rand2: string)
    requires IsHex(rand) && IsHex(rand2)
    requires |Suffix(time, rand)| < USERNAME_MAX_LENGTH && !Fits(time2, rand2)
    ensures GenerateUsername(lower, email, time, rand) != GenerateUsername(lower, email2, time2, rand2)
  {
    var s, s2 := Suffix(time, rand), Suffix(time2, rand2);
    var b := Slice(BaseUsernameFromEmail(lower, email), USERNAME_MAX_LENGTH - |s|);
    var name, name2 := b + s, s2[..USERNAME_MAX_LENGTH];
    assert |b| >= 1 && GenerateUsername(lower, email, time, rand) == name;
    assert GenerateUsername(lower, email2, time2, rand2) == name2;
    if name == name2 {
      var i, j := |b|, |b| + 1 + |Decimal(time)|;
      assert name[i] == s[0] == '_' && name[j] == s[1 + |Decimal(time)|] == '_';
      UnderscoreOf(time2, rand2, i);
      UnderscoreOf(time2, rand2, j);
      assert false;
    }
  }

  lemma UnderscoreOf(time: nat, rand: string, k: nat)
    requires IsHex(rand) && k < |Suffix(time, rand)|
    ensures Suffix(time, rand)[k] == '_' <==> k == 0 || k == 1 + |Decimal(time)|
  {
    var d := Decimal(time);
    if 1 <= k <= |d| {
      assert Suffix(time, rand)[k] == d[k - 1] && d[k - 1] in d;
    } else if k > 1 + |d| {
      assert Suffix(time, rand)[k] == rand[k - 2 - |d|] && rand[k - 2 - |d|] in rand;
    }
  }

  lemma LongSuffixIsShared(lower: string -> string, email: string, time: nat, rand: string)
    requires IsHex(rand) && |Suffix(time, rand)| >= USERNAME_MAX_LENGTH
    ensures GenerateUsername(lower, email, time, rand) == GenerateUsername(lower, email, time, rand + "0")
  {
    var s := Suffix(time, rand);
    assert Suffix(time, rand + "0") == s + "0";
  }

  // A pair is told from all others exactly when its suffix leaves room for one character of the base.
  lemma DistinctiveIffRoomForBase(lower: string -> string, time: nat, rand: string)
    requires IsHex(rand)
    ensures Distinctive(lower, time, rand) <==> |Suffix(time, rand)| < USERNAME_MAX_LENGTH
  {
    if |Suffix(time, rand)| < USERNAME_MAX_LENGTH {
      forall email1, email2, time2: nat, rand2 |
        IsHex(rand2) && GenerateUsername(lower, email1, time, rand) == GenerateUsername(lower, email2, time2, rand2)
        ensures time2 == time && rand2 == rand
      {
        if Fits(time2, rand2) {
          DistinctPairsDistinctNames(lower, email1, time, rand, email2, time2, rand2);
        } else {
          CutNeverMeetsWhole(lower, email1, time, rand, email2, time2, rand2);
        }
      }
    } else {
      LongSuffixIsShared(lower, "", time, rand);
      assert IsHex(rand + "0") && |rand + "0"| == |rand| + 1;
    }
  }

  // ---------- The default time and random suffix ----------

  // The latest time a JavaScript `Date` can hold.
  const MAX_TIME := 8_640_000_000_000_000
  const RANDOM_SUFFIX_BYTES := 2

  function Pow10(digits: nat): nat {
    if digits == 0 then 1 else 10 * Pow10(digits - 1)
  }

  lemma {:induction false} DecimalLength(n: nat, digits: nat)
    requires digits >= 1 && n < Pow10(digits)
    ensures |Decimal(n)| <= digits
    decreases digits
  {
    if n >= 10 {
      assert digits > 1;
      DecimalLength(n / 10, digits - 1);
    }
  }

  // With `Date.now` and two random bytes every name the service generates is told from all others.
  lemma DefaultIsDistinctive(lower: string -> string, time: nat, rand: string)
    requires time <= MAX_TIME && IsHex(rand) && |rand| == 2 * RANDOM_SUFFIX_BYTES
    ensures Distinctive(lower, time, rand)
  {
    assert Pow10(16) == 10_000_000_000_000_000 by {
      assert Pow10(8) == 100_000_000;
    }
    DecimalLength(time, 16);
    DistinctiveIffRoomForBase(lower, time, rand);
  }

  // Only an injected `randomSuffix` or `timeProvider` can fail: 28 hexadecimal digits at time 0, for one.
  lemma InjectedIsNot(lower: string -> string)
    ensures var rand := "beefbeefbeefbeefbeefbeefbeef"; IsHex(rand) && !Distinctive(lower, 0, rand)
  {
    var rand := "beefbeefbeefbeefbeefbeefbeef";
    assert |Suffix(0, rand)| == 31;
    DistinctiveIffRoomForBase(lower, 0, rand);
  }
}

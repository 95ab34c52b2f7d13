/** Version tags and their order (src/vq/auto_update.py:66-216), against section 11 of Semantic
    Versioning 2.0.0. */
module SemVer {
  import opened Common
  import StringOrder

  datatype Identifier = Numeric(value: nat) | Text(text: string)

  /** A parsed tag without its build metadata; no prerelease identifiers means a release. */
  datatype Version = Version(major: nat, minor: nat, patch: nat, prerelease: seq<Identifier>)

  // --------------------------------------------------------------------
  // Reading a tag

  predicate Digit(c: char) {
    '0' <= c <= '9'
  }

  predicate IdentifierChar(c: char) {
    Digit(c) || 'A' <= c <= 'Z' || 'a' <= c <= 'z' || c == '-'
  }

  predicate AllDigits(s: string) {
    s != "" && forall i :: 0 <= i < |s| ==> Digit(s[i])
  }

  /** No leading zero, except zero itself. */
  predicate NumberText(s: string) {
    AllDigits(s) && (|s| > 1 ==> s[0] != '0')
  }

  predicate IdentifierText(s: string) {
    s != "" && (forall i :: 0 <= i < |s| ==> IdentifierChar(s[i]))
  }

  function ToNat(s: string): nat
    requires forall i :: 0 <= i < |s| ==> Digit(s[i])
  {
    if s == "" then 0
    else
      assert Digit(s[|s| - 1]);
      10 * ToNat(s[..|s| - 1]) + (s[|s| - 1] as int - '0' as int)
  }

  /** The text up to the first such character, and what follows it if there is one. */
  function Cut(s: string, c: char): (string, Option<string>) {
    if s == "" then ("", None)
    else if s[0] == c then ("", Some(s[1..]))
    else
      var (left, right) := Cut(s[1..], c);
      ([s[0]] + left, right)
  }

  function Fields(s: string, c: char): seq<string>
    decreases |s|
  {
    CutShrinks(s, c);
    var (left, right) := Cut(s, c);
    if right.None? then [left] else [left] + Fields(right.value, c)
  }

  lemma {:induction false} CutShrinks(s: string, c: char)
    ensures Cut(s, c).1.Some? ==> |Cut(s, c).1.value| < |s|
  {
    if s != "" && s[0] != c { CutShrinks(s[1..], c); }
  }

  function ParseIdentifier(s: string): Option<Identifier> {
    if !IdentifierText(s) then None
    else if !AllDigits(s) then Some(Text(s))
    else if |s| > 1 && s[0] == '0' then None
    else Some(Numeric(ToNat(s)))
  }

  function ParseIdentifiers(fields: seq<string>): Option<seq<Identifier>> {
    if fields == [] then Some([])
    else
      var first :- ParseIdentifier(fields[0]);
      var rest :- ParseIdentifiers(fields[1..]);
      Some([first] + rest)
  }

  predicate BuildOk(build: Option<string>) {
    build.Some? ==> forall i :: 0 <= i < |Fields(build.value, '.')| ==> IdentifierText(Fields(build.value, '.')[i])
  }

  function ParseCore(core: string, prerelease: seq<Identifier>): Option<Version> {
    var f := Fields(core, '.');
    if |f| != 3 || !NumberText(f[0]) || !NumberText(f[1]) || !NumberText(f[2]) then None
    else Some(Version(ToNat(f[0]), ToNat(f[1]), ToNat(f[2]), prerelease))
  }

  /** A tag of the form vMAJOR.MINOR.PATCH, then a prerelease, then build metadata, or nothing. */
  function Parse(tag: string): Option<Version> {
    if tag == "" || tag[0] != 'v' then None
    else
      var (versioned, build) := Cut(tag[1..], '+');
      var (core, pre) := Cut(versioned, '-');
      if !BuildOk(build) then None
      else if pre.None? then ParseCore(core, [])
      else
        var identifiers :- ParseIdentifiers(Fields(pre.value, '.'));
        ParseCore(core, identifiers)
  }

  lemma {:induction false} CutAppend(s: string, c: char, t: string)
    requires c !in s
    ensures Cut(s + [c] + t, c) == (s, Some(t)) && Cut(s, c) == (s, None)
  {
    if s == "" {
      assert s + [c] + t == [c] + t && ([c] + t)[1..] == t;
    } else {
      assert (s + [c] + t)[1..] == s[1..] + [c] + t;
      CutAppend(s[1..], c, t);
      assert s == [s[0]] + s[1..];
    }
  }

  /** Build metadata says nothing about the version. */
  lemma BuildIgnored(tag: string, build: string)
    requires '+' !in tag && tag != "" && BuildOk(Some(build))
    ensures Parse(tag + "+" + build) == Parse(tag)
  {
    hide ParseCore, ParseIdentifiers, Fields, BuildOk;
    assert (tag + "+" + build)[1..] == tag[1..] + ['+'] + build;
    CutAppend(tag[1..], '+', build);
    NoBuildOk();
  }

  lemma NoBuildOk()
    ensures BuildOk(None)
  {
  }

  // --------------------------------------------------------------------
  // Which tags spell which version

  /** A word of digits, upper and lower case letters and hyphens. */
  ghost predicate Word(s: string) {
    s != "" && forall i :: 0 <= i < |s| ==>
      s[i] in "0123456789-" || 65 <= s[i] as int <= 90 || 97 <= s[i] as int <= 122
  }

  /** The identifiers a prerelease may have: a number, or a word that is not all digits. */
  ghost predicate Spellable(x: Identifier) {
    x.Text? ==> Word(x.text) && exists i :: 0 <= i < |x.text| && x.text[i] !in "0123456789"
  }

  ghost function IdentifierSpelling(x: Identifier): string {
    if x.Numeric? then Decimal(x.value) else x.text
  }

  ghost function Join(fields: seq<string>): string
    requires fields != []
  {
    if |fields| == 1 then fields[0] else fields[0] + "." + Join(fields[1..])
  }

  ghost function Spellings(xs: seq<Identifier>): (texts: seq<string>)
    ensures |texts| == |xs| && forall i :: 0 <= i < |xs| ==> texts[i] == IdentifierSpelling(xs[i])
  {
    seq(|xs|, i requires 0 <= i < |xs| => IdentifierSpelling(xs[i]))
  }

  /** MAJOR.MINOR.PATCH. */
  ghost function CoreSpelling(v: Version): string {
    Decimal(v.major) + "." + Decimal(v.minor) + "." + Decimal(v.patch)
  }

  /** The one spelling of a version, before build metadata. */
  ghost function Spelling(v: Version): string {
    if v.prerelease == [] then "v" + CoreSpelling(v) else "v" + CoreSpelling(v) + "-" + Join(Spellings(v.prerelease))
  }

  ghost predicate AllSpellable(xs: seq<Identifier>) {
    forall i :: 0 <= i < |xs| ==> Spellable(xs[i])
  }

  /** The tag spells the version, with build metadata or without. */
  ghost predicate Spells(tag: string, v: Version) {
    && AllSpellable(v.prerelease)
    && (tag == Spelling(v) || exists build: seq<string> :: IsBuild(build) && tag == Spelling(v) + "+" + Join(build))
  }

  ghost predicate IsBuild(build: seq<string>) {
    build != [] && forall i :: 0 <= i < |build| ==> Word(build[i])
  }

  lemma WordsMean(s: string)
    ensures IdentifierText(s) <==> Word(s)
    ensures AllDigits(s) <==> s != "" && forall i :: 0 <= i < |s| ==> s[i] in "0123456789"
  {
  }

  lemma {:induction false} DecimalReads(n: nat)
    ensures NumberText(Decimal(n)) && ToNat(Decimal(n)) == n
    ensures n > 0 ==> Decimal(n)[0] != '0'
  {
    if n >= 10 {
      DecimalReads(n / 10);
      var d := Decimal(n);
      assert d[..|d| - 1] == Decimal(n / 10);
    } else {
      assert Decimal(n)[..0] == "";
    }
  }

  lemma DecimalGrows(n: nat, c: char)
    requires Digit(c) && n > 0
    ensures Decimal(10 * n + (c as int - '0' as int)) == Decimal(n) + [c]
  {
    var m := 10 * n + (c as int - '0' as int);
    assert m / 10 == n && m % 10 == c as int - '0' as int;
  }

  lemma {:induction false} NumberSpelled(s: string)
    requires NumberText(s)
    ensures Decimal(ToNat(s)) == s
  {
    var front, last := s[..|s| - 1], s[|s| - 1];
    assert s == front + [last] && Digit(last);
    if front != "" {
      hide Decimal;
      NumberSpelled(front);
      LeadingDigit(front);
      DecimalGrows(ToNat(front), last);
    }
  }

  lemma {:induction false} LeadingDigit(s: string)
    requires AllDigits(s) && s[0] != '0'
    ensures ToNat(s) > 0
  {
    if |s| > 1 { LeadingDigit(s[..|s| - 1]); } else { assert ToNat(s[..0]) == 0; }
  }

  /** Cutting at a character: what is before it is without it, and nothing is lost. */
  lemma {:induction false} CutSplits(s: string, c: char)
    ensures var (left, right) := Cut(s, c);
            && c !in left && (right.None? ==> s == left) && (right.Some? ==> s == left + [c] + right.value)
  {
    if s != "" && s[0] != c { CutSplits(s[1..], c); }
  }

  lemma {:induction false} JoinSplits(s: string)
    ensures Fields(s, '.') != [] && Join(Fields(s, '.')) == s
    ensures forall i :: 0 <= i < |Fields(s, '.')| ==> '.' !in Fields(s, '.')[i]
    decreases |s|
  {
    CutShrinks(s, '.');
    CutSplits(s, '.');
    var (left, right) := Cut(s, '.');
    if right.Some? {
      JoinSplits(right.value);
      assert Fields(s, '.') == [left] + Fields(right.value, '.');
    }
  }

  lemma {:induction false} SplitJoins(fields: seq<string>)
    requires fields != [] && forall i :: 0 <= i < |fields| ==> '.' !in fields[i]
    ensures Fields(Join(fields), '.') == fields
  {
    if |fields| > 1 {
      SplitJoins(fields[1..]);
      CutAppend(fields[0], '.', Join(fields[1..]));
      assert fields == [fields[0]] + fields[1..];
    } else {
      CutAppend(fields[0], '.', "");
    }
  }

  lemma {:induction false} JoinAvoids(fields: seq<string>, c: char)
    requires fields != [] && c != '.' && forall i :: 0 <= i < |fields| ==> c !in fields[i]
    ensures c !in Join(fields)
  {
    if |fields| > 1 { JoinAvoids(fields[1..], c); }
  }

  lemma IdentifierReads(s: string, x: Identifier)
    ensures ParseIdentifier(s) == Some(x) <==> Spellable(x) && s == IdentifierSpelling(x)
    ensures Spellable(x) ==> Word(IdentifierSpelling(x))
  {
    hide ToNat, Decimal;
    WordsMean(s);
    WordsMean(IdentifierSpelling(x));
    if x.Numeric? { DecimalReads(x.value); }
    if NumberText(s) { NumberSpelled(s); }
  }

  lemma {:induction false} IdentifiersRead(fields: seq<string>, xs: seq<Identifier>)
    ensures ParseIdentifiers(fields) == Some(xs)
            <==> fields == Spellings(xs) && AllSpellable(xs)
  {
    hide ParseIdentifier, IdentifierSpelling, Spellable;
    if fields == [] {
      assert xs == [] ==> Spellings(xs) == [];
    } else if xs == [] {
      assert Spellings(xs) == [];
    } else {
      IdentifierReads(fields[0], xs[0]);
      IdentifiersRead(fields[1..], xs[1..]);
      SpellingsTail(xs);
      assert fields == [fields[0]] + fields[1..] && xs == [xs[0]] + xs[1..];
    }
  }

  lemma SpellingsTail(xs: seq<Identifier>)
    requires xs != []
    ensures Spellings(xs) == [IdentifierSpelling(xs[0])] + Spellings(xs[1..])
  {
  }

  lemma JoinThree(a: string, b: string, c: string)
    ensures Join([a, b, c]) == a + "." + b + "." + c
  {
    assert [a, b, c][1..] == [b, c] && [b, c][1..] == [c];
    assert Join([b, c]) == b + "." + c;
    assert a + "." + (b + "." + c) == a + "." + b + "." + c;
  }

  lemma DecimalPlain(n: nat, c: char)
    requires !Digit(c)
    ensures c !in Decimal(n)
  {
    DecimalReads(n);
  }

  lemma CoreReads(core: string, v: Version)
    ensures ParseCore(core, v.prerelease) == Some(v) <==> core == CoreSpelling(v)
  {
    hide Fields, Join, Decimal, ToNat, NumberText;
    JoinSplits(core);
    var f := Fields(core, '.');
    var texts := [Decimal(v.major), Decimal(v.minor), Decimal(v.patch)];
    JoinThree(texts[0], texts[1], texts[2]);
    DecimalPlain(v.major, '.');
    DecimalPlain(v.minor, '.');
    DecimalPlain(v.patch, '.');
    SplitJoins(texts);
    DecimalReads(v.major);
    DecimalReads(v.minor);
    DecimalReads(v.patch);
    if ParseCore(core, v.prerelease) == Some(v) {
      NumberSpelled(f[0]);
      NumberSpelled(f[1]);
      NumberSpelled(f[2]);
      assert f == texts;
    }
  }

  lemma SpellingsPlain(xs: seq<Identifier>)
    requires AllSpellable(xs)
    ensures forall i :: 0 <= i < |xs| ==> '+' !in Spellings(xs)[i] && '.' !in Spellings(xs)[i]
  {
    forall i | 0 <= i < |xs| ensures '+' !in Spellings(xs)[i] && '.' !in Spellings(xs)[i] {
      IdentifierReads(IdentifierSpelling(xs[i]), xs[i]);
    }
  }

  lemma CorePlain(v: Version, c: char)
    requires c == '+' || c == '-'
    ensures c !in CoreSpelling(v)
  {
    DecimalPlain(v.major, c);
    DecimalPlain(v.minor, c);
    DecimalPlain(v.patch, c);
  }

  /** A spelling is cut at its hyphen, and has no plus to be cut at. */
  lemma SpellingCuts(v: Version)
    requires AllSpellable(v.prerelease)
    ensures Cut(Spelling(v)[1..], '+') == (Spelling(v)[1..], None)
    ensures Cut(Spelling(v)[1..], '-')
            == (CoreSpelling(v), if v.prerelease == [] then None else Some(Join(Spellings(v.prerelease))))
  {
    hide CoreSpelling, Cut, Join, AllSpellable;
    CorePlain(v, '+');
    CorePlain(v, '-');
    if v.prerelease == [] {
      assert Spelling(v)[1..] == CoreSpelling(v);
      CutAppend(CoreSpelling(v), '-', "");
    } else {
      var texts := Spellings(v.prerelease);
      SpellingsPlain(v.prerelease);
      JoinAvoids(texts, '+');
      assert Spelling(v)[1..] == CoreSpelling(v) + ['-'] + Join(texts);
      CutAppend(CoreSpelling(v), '-', Join(texts));
    }
    CutAppend(Spelling(v)[1..], '+', "");
  }

  lemma SpellingReads(v: Version)
    requires AllSpellable(v.prerelease)
    ensures Parse(Spelling(v)) == Some(v) && '+' !in Spelling(v)
  {
    hide CoreSpelling, Cut, Join, AllSpellable, Fields, ParseIdentifiers, ParseCore;
    SpellingCuts(v);
    CutSplits(Spelling(v)[1..], '+');
    CoreReads(CoreSpelling(v), v);
    if v.prerelease != [] {
      SpellingsPlain(v.prerelease);
      SplitJoins(Spellings(v.prerelease));
      IdentifiersRead(Spellings(v.prerelease), v.prerelease);
    }
  }

  lemma BuildReads(build: seq<string>)
    requires IsBuild(build)
    ensures BuildOk(Some(Join(build)))
  {
    hide Fields, Join, IdentifierText;
    forall i | 0 <= i < |build| ensures '.' !in build[i] && IdentifierText(build[i]) { WordsMean(build[i]); }
    SplitJoins(build);
  }

  lemma BuildSpelled(build: string)
    requires BuildOk(Some(build))
    ensures IsBuild(Fields(build, '.')) && Join(Fields(build, '.')) == build
  {
    hide Fields, Join, IdentifierText;
    JoinSplits(build);
    var f := Fields(build, '.');
    forall i | 0 <= i < |f| ensures Word(f[i]) { WordsMean(f[i]); }
  }

  lemma ReadSpelled(tag: string, v: Version)
    requires Parse(tag) == Some(v)
    ensures Spells(tag, v)
  {
    hide CoreSpelling, Cut, Join, Fields, ParseIdentifiers, BuildOk, NumberText, ToNat;
    CutSplits(tag[1..], '+');
    var (versioned, build) := Cut(tag[1..], '+');
    CutSplits(versioned, '-');
    var (core, pre) := Cut(versioned, '-');
    CoreReads(core, v);
    if pre.Some? {
      JoinSplits(pre.value);
      IdentifiersRead(Fields(pre.value, '.'), v.prerelease);
    }
    assert tag == "v" + tag[1..];
    assert "v" + versioned == Spelling(v);
    if build.Some? {
      BuildSpelled(build.value);
      assert tag == Spelling(v) + "+" + Join(Fields(build.value, '.'));
    } else {
      assert tag == Spelling(v);
    }
  }

  /** A tag reads as a version exactly when it spells that version; every other tag is refused. */
  lemma ParseIff(tag: string, v: Version)
    ensures Parse(tag) == Some(v) <==> Spells(tag, v)
  {
    hide Parse, Join, CoreSpelling, BuildOk, AllSpellable;
    if Parse(tag) == Some(v) { ReadSpelled(tag, v); }
    if Spells(tag, v) {
      SpellingReads(v);
      if tag != Spelling(v) {
        var build: seq<string> :| IsBuild(build) && tag == Spelling(v) + "+" + Join(build);
        BuildReads(build);
        BuildIgnored(Spelling(v), Join(build));
      }
    }
  }

  /** Printing three numbers, with prerelease identifiers or without, and reading them back. */
  lemma RoundTrip(major: nat, minor: nat, patch: nat, identifiers: seq<Identifier>)
    requires AllSpellable(identifiers)
    ensures var core := "v" + Decimal(major) + "." + Decimal(minor) + "." + Decimal(patch);
            && Parse(core) == Some(Version(major, minor, patch, []))
            && (identifiers != [] ==>
                  Parse(core + "-" + Join(Spellings(identifiers))) == Some(Version(major, minor, patch, identifiers)))
  {
    hide Parse, Join, Decimal, Spellable;
    var release, prerelease := Version(major, minor, patch, []), Version(major, minor, patch, identifiers);
    SpellingReads(release);
    SpellingReads(prerelease);
    var core := "v" + Decimal(major) + "." + Decimal(minor) + "." + Decimal(patch);
    assert core == "v" + CoreSpelling(release) == "v" + CoreSpelling(prerelease);
  }

  // --------------------------------------------------------------------
  // Section 11 of Semantic Versioning 2.0.0

  /** Numbers by value, text by character, and numbers below text (11.4.1 to 11.4.3). */
  ghost predicate IdentifierBelow(x: Identifier, y: Identifier) {
    match (x, y)
    case (Numeric(a), Numeric(b)) => a < b
    case (Text(a), Text(b)) => StringOrder.Less(a, b)
    case (Numeric(_), Text(_)) => true
    case (Text(_), Numeric(_)) => false
  }

  /** From left to right until a difference; all the same, the shorter is below (11.4, 11.4.4). */
  ghost predicate IdentifiersBelow(x: seq<Identifier>, y: seq<Identifier>) {
    if y == [] then false
    else if x == [] then true
    else if x[0] == y[0] then IdentifiersBelow(x[1..], y[1..])
    else IdentifierBelow(x[0], y[0])
  }

  /** Major, minor and patch in turn (11.2); a prerelease is below its release (11.3). */
  ghost predicate Below(v: Version, w: Version) {
    if v.major != w.major then v.major < w.major
    else if v.minor != w.minor then v.minor < w.minor
    else if v.patch != w.patch then v.patch < w.patch
    else if v.prerelease == [] || w.prerelease == [] then v.prerelease != [] && w.prerelease == []
    else IdentifiersBelow(v.prerelease, w.prerelease)
  }

  /** The examples the standard gives in 11.2 and 11.4. */
  lemma StandardExamples()
    ensures var v := (identifiers: seq<Identifier>) => Version(1, 0, 0, identifiers);
            && Below(v([Text("alpha")]), v([Text("alpha"), Numeric(1)]))
            && Below(v([Text("alpha"), Numeric(1)]), v([Text("alpha"), Text("beta")]))
            && Below(v([Text("alpha"), Text("beta")]), v([Text("beta")]))
            && Below(v([Text("beta")]), v([Text("beta"), Numeric(2)]))
            && Below(v([Text("beta"), Numeric(2)]), v([Text("beta"), Numeric(11)]))
            && Below(v([Text("beta"), Numeric(11)]), v([Text("rc"), Numeric(1)]))
            && Below(v([Text("rc"), Numeric(1)]), v([]))
    ensures Below(Version(1, 0, 0, []), Version(2, 0, 0, [])) && Below(Version(2, 0, 0, []), Version(2, 1, 0, []))
            && Below(Version(2, 1, 0, []), Version(2, 1, 1, []))
  {
  }

  // --------------------------------------------------------------------
  // The program's comparison key, compared as a tuple

  datatype Part = Part(kind: nat, number: nat, text: string)

  datatype Key = Key(major: nat, minor: nat, patch: nat, release: nat, parts: seq<Part>)

  function PartOf(i: Identifier): Part {
    match i
    case Numeric(n) => Part(0, n, "")
    case Text(s) => Part(1, 0, s)
  }

  /** The key's identifier list, grown one identifier at a time. */
  method GrowParts(prerelease: seq<Identifier>) returns (parts: seq<Part>)
    ensures parts == PartsOf(prerelease)
  {
    parts := [];
    for i := 0 to |prerelease|
      invariant parts == PartsOf(prerelease[..i])
    {
      assert prerelease[..i + 1][..i] == prerelease[..i];
      parts := parts + [PartOf(prerelease[i])];
    }
    assert prerelease[..|prerelease|] == prerelease;
  }

  function PartsOf(prerelease: seq<Identifier>): (parts: seq<Part>)
    ensures |parts| == |prerelease| && forall i :: 0 <= i < |parts| ==> parts[i] == PartOf(prerelease[i])
  {
    if prerelease == [] then []
    else PartsOf(prerelease[..|prerelease| - 1]) + [PartOf(prerelease[|prerelease| - 1])]
  }

  function KeyOf(v: Version): Key {
    Key(v.major, v.minor, v.patch, if v.prerelease == [] then 1 else 0, PartsOf(v.prerelease))
  }

  predicate PartLess(x: Part, y: Part) {
    if x.kind != y.kind then x.kind < y.kind
    else if x.kind == 0 then x.number < y.number
    else StringOrder.Less(x.text, y.text)
  }

  predicate PartsLess(x: seq<Part>, y: seq<Part>) {
    if y == [] then false
    else if x == [] then true
    else if x[0] == y[0] then PartsLess(x[1..], y[1..])
    else PartLess(x[0], y[0])
  }

  predicate KeyLess(x: Key, y: Key) {
    if x.major != y.major then x.major < y.major
    else if x.minor != y.minor then x.minor < y.minor
    else if x.patch != y.patch then x.patch < y.patch
    else if x.release != y.release then x.release < y.release
    else PartsLess(x.parts, y.parts)
  }

  lemma PartAgrees(x: Identifier, y: Identifier)
    ensures PartOf(x) == PartOf(y) <==> x == y
    ensures PartLess(PartOf(x), PartOf(y)) <==> IdentifierBelow(x, y)
  {
  }

  lemma {:induction false} PartsAgree(x: seq<Identifier>, y: seq<Identifier>)
    ensures PartsLess(PartsOf(x), PartsOf(y)) <==> IdentifiersBelow(x, y)
    decreases |x|
  {
    if x != [] && y != [] {
      PartAgrees(x[0], y[0]);
      PartsTail(x);
      PartsTail(y);
      PartsAgree(x[1..], y[1..]);
    }
  }

  lemma PartsTail(x: seq<Identifier>)
    requires x != []
    ensures PartsOf(x)[1..] == PartsOf(x[1..])
  {
    var a, b := PartsOf(x), PartsOf(x[1..]);
    forall i | 0 <= i < |b| ensures a[1..][i] == b[i] { }
  }

  /** The key orders exactly as the standard does. */
  lemma KeyIsPrecedence(v: Version, w: Version)
    ensures KeyLess(KeyOf(v), KeyOf(w)) <==> Below(v, w)
    ensures KeyOf(v) == KeyOf(w) <==> v == w
  {
    hide PartsLess, IdentifiersBelow;
    PartsAgree(v.prerelease, w.prerelease);
    if KeyOf(v) == KeyOf(w) {
      forall i | 0 <= i < |v.prerelease| ensures v.prerelease[i] == w.prerelease[i] {
        PartAgrees(v.prerelease[i], w.prerelease[i]);
      }
    }
    if v.prerelease == [] && w.prerelease == [] { NothingBelow(); }
  }

  lemma NothingBelow()
    ensures !PartsLess(PartsOf([]), PartsOf([]))
  {
  }

  // --------------------------------------------------------------------
  // A total order on versions, and so a total preorder on tags

  lemma {:induction false} IdentifiersTotal(x: seq<Identifier>, y: seq<Identifier>)
    ensures x == y || IdentifiersBelow(x, y) || IdentifiersBelow(y, x)
    ensures !(IdentifiersBelow(x, y) && IdentifiersBelow(y, x)) && (x == y ==> !IdentifiersBelow(x, y))
    decreases |x|
  {
    if x != [] && y != [] {
      IdentifierTotal(x[0], y[0]);
      IdentifiersTotal(x[1..], y[1..]);
      assert x == [x[0]] + x[1..] && y == [y[0]] + y[1..];
    }
  }

  lemma IdentifierTotal(x: Identifier, y: Identifier)
    ensures x == y || IdentifierBelow(x, y) || IdentifierBelow(y, x)
    ensures !(IdentifierBelow(x, y) && IdentifierBelow(y, x)) && (x == y ==> !IdentifierBelow(x, y))
  {
    if x.Text? && y.Text? {
      StringOrder.LessTotal(x.text, y.text);
      if StringOrder.Less(x.text, y.text) { StringOrder.LessAsymmetric(x.text, y.text); }
      if StringOrder.Less(y.text, x.text) { StringOrder.LessAsymmetric(y.text, x.text); }
    }
  }

  lemma {:induction false} IdentifiersTransitive(x: seq<Identifier>, y: seq<Identifier>, z: seq<Identifier>)
    requires IdentifiersBelow(x, y) && IdentifiersBelow(y, z)
    ensures IdentifiersBelow(x, z)
    decreases |x|
  {
    if x != [] {
      if x[0] == y[0] == z[0] {
        IdentifiersTransitive(x[1..], y[1..], z[1..]);
      } else {
        IdentifierTransitive(x[0], y[0], z[0]);
      }
    }
  }

  lemma IdentifierTransitive(x: Identifier, y: Identifier, z: Identifier)
    requires (x == y || IdentifierBelow(x, y)) && (y == z || IdentifierBelow(y, z)) && !(x == y == z)
    ensures IdentifierBelow(x, z) && x != z
  {
    if x.Text? && y.Text? && z.Text? && x != y && y != z { StringOrder.LessTransitive(x.text, y.text, z.text); }
    IdentifierTotal(x, y);
    IdentifierTotal(y, z);
    IdentifierTotal(x, z);
  }

  /** Of two versions exactly one is below the other, unless they are the same. */
  lemma BelowTotal(v: Version, w: Version)
    ensures v == w || Below(v, w) || Below(w, v)
    ensures !(Below(v, w) && Below(w, v)) && (v == w ==> !Below(v, w))
  {
    hide IdentifiersBelow;
    IdentifiersTotal(v.prerelease, w.prerelease);
  }

  lemma BelowTransitive(u: Version, v: Version, w: Version)
    requires Below(u, v) && Below(v, w)
    ensures Below(u, w)
  {
    hide IdentifiersBelow;
    if u.prerelease != [] && v.prerelease != [] && w.prerelease != []
       && IdentifiersBelow(u.prerelease, v.prerelease) && IdentifiersBelow(v.prerelease, w.prerelease) {
      IdentifiersTransitive(u.prerelease, v.prerelease, w.prerelease);
    }
  }
}

/**
  The authorization check by tags. An entry of the tag value may contain stars; the source rewrites it into an
  anchored regular expression. Here the rewriting, the regular expressions it can produce and their matching are
  written out, and the check is proved to accept exactly the whole-string glob matches.
 */
module Authorization {
  import opened Basics

  const SCOPE_GARDEN := "garden"
  const SCOPE_AUTHORIZED := "authorized-shoots"

  // ---- strings ----

  /** The parts of s between separators; a string without separators is one part. */
  function Split(s: string, sep: char): (parts: seq<string>)
    ensures |parts| > 0
  {
    if s == "" then [""]
    else
      var rest := Split(s[1..], sep);
      if s[0] == sep then [""] + rest
      else [[s[0]] + rest[0]] + rest[1..]
  }

  function Join(parts: seq<string>, sep: char): string
    requires |parts| > 0
  {
    if |parts| == 1 then parts[0] else parts[0] + [sep] + Join(parts[1..], sep)
  }

  lemma {:induction false} SplitJoin(s: string, sep: char)
    ensures Join(Split(s, sep), sep) == s
    ensures forall p :: p in Split(s, sep) ==> sep !in p
  {
    if s != "" {
      SplitJoin(s[1..], sep);
      var rest := Split(s[1..], sep);
      if s[0] == sep {
        assert ([""] + rest)[1..] == rest;
        assert Join([""] + rest, sep) == "" + [sep] + Join(rest, sep);
      } else {
        var parts := [[s[0]] + rest[0]] + rest[1..];
        assert parts[1..] == rest[1..] && parts[0] == [s[0]] + rest[0];
        assert Join(parts, sep) == [s[0]] + Join(rest, sep);
        forall p | p in parts ensures sep !in p {
          if p != parts[0] { assert p in rest[1..]; assert p in rest; }
        }
      }
    }
  }

  /** Every star becomes dot star. */
  function Rewrite(part: string): string {
    if part == "" then ""
    else (if part[0] == '*' then ".*" else [part[0]]) + Rewrite(part[1..])
  }

  // ---- the regular expressions that occur ----

  datatype Atom = Exact(c: char) | Dot
  datatype Item = Caret | Dollar | One(atom: Atom) | Many(atom: Atom)

  predicate IsMeta(c: char) {
    || c == '\\' || c == '+' || c == '?' || c == '(' || c == ')'
    || c == '[' || c == ']' || c == '{' || c == '}' || c == '|'
  }

  /** Compiles a pattern of literals, anchors, dots and stars; None for anything else. */
  function Compile(re: string): Option<seq<Item>> {
    if re == "" then Some([])
    else if re[0] == '*' || IsMeta(re[0]) then None
    else if re[0] == '^' || re[0] == '$' then
      var rest := Compile(re[1..]);
      if rest.None? then None else Some([if re[0] == '^' then Caret else Dollar] + rest.value)
    else
      var atom := if re[0] == '.' then Dot else Exact(re[0]);
      if |re| > 1 && re[1] == '*' then
        var rest := Compile(re[2..]);
        if rest.None? then None else Some([Many(atom)] + rest.value)
      else
        var rest := Compile(re[1..]);
        if rest.None? then None else Some([One(atom)] + rest.value)
  }

  /** A dot matches every character but the newline. */
  predicate Fits(a: Atom, c: char) {
    match a
    case Exact(d) => c == d
    case Dot => c != '\n'
  }

  predicate MatchAt(items: seq<Item>, text: string, i: nat)
    requires i <= |text|
    decreases |items|, |text| - i
  {
    if items == [] then true
    else match items[0]
      case Caret => i == 0 && MatchAt(items[1..], text, i)
      case Dollar => i == |text| && MatchAt(items[1..], text, i)
      case One(a) => i < |text| && Fits(a, text[i]) && MatchAt(items[1..], text, i + 1)
      case Many(a) =>
        MatchAt(items[1..], text, i) || (i < |text| && Fits(a, text[i]) && MatchAt(items, text, i + 1))
  }

  /** A pattern matches a text when it matches somewhere in it. */
  predicate MatchString(items: seq<Item>, text: string) {
    exists i :: 0 <= i <= |text| && MatchAt(items, text, i)
  }

  /** The meaning of an entry: stars stand for any text, everything else for itself, over the whole string. */
  predicate Glob(part: string, text: string)
    decreases |part|, |text|
  {
    if part == "" then text == ""
    else if part[0] == '*' then Glob(part[1..], text) || (text != "" && Glob(part, text[1..]))
    else text != "" && text[0] == part[0] && Glob(part[1..], text[1..])
  }

  // ---- the check ----

  function Regex(part: string): string {
    "^" + Rewrite(part) + "$"
  }

  predicate EntryAccepts(part: string, namespace: string) {
    if '*' in part then Compile(Regex(part)).Some? && MatchString(Compile(Regex(part)).value, namespace)
    else part == namespace
  }

  function TagValue(tags: map<string, string>, scope: string): string {
    if scope in tags then tags[scope] else ""
  }

  predicate Authorized(gardenID: string, namespace: string, tags: map<string, string>) {
    && TagValue(tags, SCOPE_GARDEN) != ""
    && TagValue(tags, SCOPE_GARDEN) == gardenID
    && TagValue(tags, SCOPE_AUTHORIZED) != ""
    && exists p :: p in Split(TagValue(tags, SCOPE_AUTHORIZED), ',') && EntryAccepts(p, namespace)
  }

  method CheckShootAuthorizationByTags(gardenID: string, namespace: string, tags: map<string, string>)
    returns (ok: bool)
    ensures ok == Authorized(gardenID, namespace, tags)
  {
    var gardenIDValue := TagValue(tags, SCOPE_GARDEN);
    if gardenIDValue == "" {
      return false;
    }
    if gardenID != gardenIDValue {
      return false;
    }
    var authorizedShoots := TagValue(tags, SCOPE_AUTHORIZED);
    if authorizedShoots == "" {
      return false;
    }
    var parts := Split(authorizedShoots, ',');
    for i := 0 to |parts|
      invariant forall j :: 0 <= j < i ==> !EntryAccepts(parts[j], namespace)
    {
      if '*' in parts[i] {
        var re := Compile(Regex(parts[i]));
        if re.None? {
          continue;
        }
        if MatchString(re.value, namespace) {
          assert EntryAccepts(parts[i], namespace);
          return true;
        }
      } else if parts[i] == namespace {
        assert EntryAccepts(parts[i], namespace);
        return true;
      }
    }
    return false;
  }

  // ---- when the rewriting keeps the meaning ----

  /** A character without a meaning of its own in expressions; newlines do not count as such. */
  predicate Ordinary(c: char) {
    !IsMeta(c) && c != '*' && c != '.' && c != '^' && c != '$' && c != '\n'
  }

  /** Entries made of ordinary characters, dots and stars. */
  ghost predicate PlainEntry(part: string) {
    forall i :: 0 <= i < |part| ==> Ordinary(part[i]) || part[i] == '*' || part[i] == '.'
  }

  /** The compiled form of the rewritten entry, item by item. */
  function Items(part: string): seq<Item> {
    if part == "" then [Dollar]
    else
      [if part[0] == '*' then Many(Dot) else if part[0] == '.' then One(Dot) else One(Exact(part[0]))] + Items(part[1..])
  }

  lemma RewriteHead(part: string)
    ensures Rewrite(part) != "" ==> part != "" && Rewrite(part)[0] == (if part[0] == '*' then '.' else part[0])
  {}

  lemma {:induction false} CompileRewrite(part: string)
    requires PlainEntry(part)
    ensures Compile(Rewrite(part) + "$") == Some(Items(part))
  {
    if part == "" {
      assert Compile("$") == Some([Dollar] + []) by { assert "$"[1..] == ""; }
      assert Rewrite(part) + "$" == "$";
      assert [Dollar] + [] == [Dollar];
    } else {
      var rest := Rewrite(part[1..]) + "$";
      CompileRewrite(part[1..]);
      RewriteHead(part[1..]);
      assert Ordinary(part[0]) || part[0] == '*' || part[0] == '.';
      if part[0] == '*' {
        var re := Rewrite(part) + "$";
        assert re == ".*" + rest;
        assert re[0] == '.' && re[1] == '*' && re[2..] == rest;
      } else {
        var re := Rewrite(part) + "$";
        assert re == [part[0]] + rest;
        assert re[0] == part[0] && re[1..] == rest;
        if part[1..] != "" {
          assert Ordinary(part[1]) || part[1] == '*' || part[1] == '.';
          assert rest[0] == Rewrite(part[1..])[0];
        }
        assert rest[0] != '*';
      }
    }
  }

  lemma {:induction false} ItemsAreGlob(part: string, text: string, i: nat)
    requires i <= |text| && '\n' !in text && '.' !in part
    ensures MatchAt(Items(part), text, i) <==> Glob(part, text[i..])
    decreases |part|, |text| - i
  {
    if part != "" {
      var items := Items(part);
      assert items[1..] == Items(part[1..]) && part == [part[0]] + part[1..];
      if i < |text| {
        assert text[i..][1..] == text[i + 1..] && text[i..][0] == text[i];
        assert text[i] in text;
        ItemsAreGlob(part[1..], text, i + 1);
      }
      if part[0] == '*' {
        ItemsAreGlob(part[1..], text, i);
        if i < |text| { ItemsAreGlob(part, text, i + 1); }
      }
    } else {
      assert Items(part)[1..] == [];
    }
  }

  lemma CompileEntry(part: string)
    requires PlainEntry(part)
    ensures Compile(Regex(part)) == Some([Caret] + Items(part))
  {
    CompileRewrite(part);
    var re := Regex(part);
    assert re == "^" + (Rewrite(part) + "$");
    assert re[0] == '^' && re[1..] == Rewrite(part) + "$";
  }

  /** The compiled entry is anchored at both ends. */
  lemma MatchIsAnchored(part: string, namespace: string)
    ensures MatchString([Caret] + Items(part), namespace) <==> MatchAt(Items(part), namespace, 0)
  {
    var items := [Caret] + Items(part);
    assert items[1..] == Items(part);
    assert MatchAt(items, namespace, 0) <==> MatchAt(Items(part), namespace, 0);
  }

  /** The translation theorem: without dots, the anchored expression accepts exactly the whole-string glob matches. */
  lemma RewritingKeepsMeaning(part: string, namespace: string)
    requires PlainEntry(part) && '.' !in part && '\n' !in namespace
    ensures Compile(Regex(part)).Some?
    ensures MatchString(Compile(Regex(part)).value, namespace) <==> Glob(part, namespace)
  {
    CompileEntry(part);
    MatchIsAnchored(part, namespace);
    ItemsAreGlob(part, namespace, 0);
    assert namespace[0..] == namespace;
  }

  lemma {:induction false} StarlessGlob(part: string, text: string)
    requires '*' !in part
    ensures Glob(part, text) <==> part == text
  {
    if part != "" {
      assert part[0] in part;
      forall c | c in part[1..] ensures c != '*' { assert c in part; }
      if text != "" {
        StarlessGlob(part[1..], text[1..]);
        assert part == [part[0]] + part[1..] && text == [text[0]] + text[1..];
      }
    }
  }

  // A dot of the entry becomes a wildcard as soon as there is a star.

  /** A text that the expression accepts: stars stand for nothing, dots for another character. */
  function Sample(part: string): string {
    if part == "" then ""
    else (if part[0] == '*' then "" else if part[0] == '.' then "x" else [part[0]]) + Sample(part[1..])
  }

  lemma {:induction false} SampleIsDotless(part: string)
    requires PlainEntry(part)
    ensures '.' !in Sample(part) && '\n' !in Sample(part)
  {
    if part != "" {
      SampleIsDotless(part[1..]);
      assert Ordinary(part[0]) || part[0] == '*' || part[0] == '.';
    }
  }

  lemma {:induction false} SampleMatches(part: string, text: string, i: nat)
    requires PlainEntry(part) && i <= |text| && text[i..] == Sample(part)
    ensures MatchAt(Items(part), text, i)
  {
    var items := Items(part);
    if part == "" {
      assert items[1..] == [];
    } else {
      assert items[1..] == Items(part[1..]);
      if part[0] == '*' {
        SampleMatches(part[1..], text, i);
      } else {
        assert Ordinary(part[0]) || part[0] == '.';
        assert text[i..][0] == text[i] == Sample(part)[0];
        assert text[i + 1..] == text[i..][1..] == Sample(part[1..]);
        SampleMatches(part[1..], text, i + 1);
      }
    }
  }

  /** A glob with a dot demands a dot. */
  lemma {:induction false} GlobNeedsDot(part: string, text: string)
    requires '.' in part && Glob(part, text)
    ensures '.' in text
    decreases |part|, |text|
  {
    assert part == [part[0]] + part[1..];
    if part[0] == '*' {
      if Glob(part[1..], text) { GlobNeedsDot(part[1..], text); } else { GlobNeedsDot(part, text[1..]); }
    } else if part[0] != '.' {
      GlobNeedsDot(part[1..], text[1..]);
    }
  }

  /** The entry means what it looks like, for every namespace without newlines. */
  ghost predicate KeepsMeaning(part: string) {
    forall namespace: string :: '\n' !in namespace ==> (EntryAccepts(part, namespace) <==> Glob(part, namespace))
  }

  /** Exactly when an entry is not taken literally: when it has both a star and a dot. */
  lemma MeaningKeptIff(part: string)
    requires PlainEntry(part)
    ensures KeepsMeaning(part) <==> '*' !in part || '.' !in part
  {
    if '*' !in part || '.' !in part {
      forall namespace: string | '\n' !in namespace ensures EntryAccepts(part, namespace) <==> Glob(part, namespace) {
        if '*' !in part { StarlessGlob(part, namespace); } else { RewritingKeepsMeaning(part, namespace); }
      }
    } else {
      var namespace := Sample(part);
      SampleIsDotless(part);
      CompileEntry(part);
      MatchIsAnchored(part, namespace);
      assert namespace[0..] == namespace;
      SampleMatches(part, namespace, 0);
      if Glob(part, namespace) { GlobNeedsDot(part, namespace); }
      assert EntryAccepts(part, namespace) && !Glob(part, namespace);
    }
  }

  /** The whole check, in terms of globs. */
  lemma AuthorizedMeansGlob(gardenID: string, namespace: string, tags: map<string, string>)
    requires forall p :: p in Split(TagValue(tags, SCOPE_AUTHORIZED), ',') ==> PlainEntry(p) && ('*' !in p || '.' !in p)
    requires '\n' !in namespace
    ensures Authorized(gardenID, namespace, tags) <==>
            && TagValue(tags, SCOPE_GARDEN) != "" && TagValue(tags, SCOPE_GARDEN) == gardenID
            && TagValue(tags, SCOPE_AUTHORIZED) != ""
            && exists p :: p in Split(TagValue(tags, SCOPE_AUTHORIZED), ',') && Glob(p, namespace)
  {
    var parts := Split(TagValue(tags, SCOPE_AUTHORIZED), ',');
    forall p | p in parts ensures EntryAccepts(p, namespace) <==> Glob(p, namespace) {
      MeaningKeptIff(p);
    }
    if p :| p in parts && Glob(p, namespace) {
      assert EntryAccepts(p, namespace);
      assert exists q :: q in Split(TagValue(tags, SCOPE_AUTHORIZED), ',') && EntryAccepts(q, namespace);
    }
    if Authorized(gardenID, namespace, tags) {
      var p :| p in parts && EntryAccepts(p, namespace);
      assert Glob(p, namespace);
    }
  }
}

/**
 * From a configured table name to the places its rows and its checkpoint are written:
 * src/pipeline.rs, `uri_for` of src/checkpoint.rs and the default layout of src/python.rs.
 */
module Names {
  import opened Wrappers

  // ------------------------------------------------------------------------ identifiers

  predicate IsWhitespace(c: char) {
    || '\U{0009}' <= c <= '\U{000D}'
    || c in {' ', '\U{0085}', '\U{00A0}', '\U{1680}', '\U{2028}', '\U{2029}', '\U{202F}', '\U{205F}', '\U{3000}'}
    || '\U{2000}' <= c <= '\U{200A}'
  }

  /** `s.trim().is_empty()` */
  predicate Blank(s: string) {
    forall i | 0 <= i < |s| :: IsWhitespace(s[i])
  }

  /** What `validate_identifier` lets through. */
  predicate SafeName(name: string) {
    && name != ""
    && (forall i | 0 <= i < |name| :: name[i] !in "'\";\\\0[]" && !IsWhitespace(name[i]))
  }

  function Lower(c: char): char {
    if 'A' <= c <= 'Z' then ((c as int) + 32) as char else c
  }

  predicate EqualIgnoreCase(a: string, b: string) {
    |a| == |b| && forall i | 0 <= i < |a| :: Lower(a[i]) == Lower(b[i])
  }

  /** `u` and `l` are the two cases of one ASCII letter. */
  predicate TwoCases(u: char, l: char) {
    'A' <= u <= 'Z' && 'a' <= l <= 'z' && (u as int) - ('A' as int) == (l as int) - ('a' as int)
  }

  /** Column names match when they differ in the case of ASCII letters only. */
  lemma SameLetters(a: string, b: string)
    ensures EqualIgnoreCase(a, b) <==>
            |a| == |b| && forall i | 0 <= i < |a| :: a[i] == b[i] || TwoCases(a[i], b[i]) || TwoCases(b[i], a[i])
  {
    forall c: char, d: char ensures Lower(c) == Lower(d) <==> c == d || TwoCases(c, d) || TwoCases(d, c) {
    }
  }

  // ------------------------------------------------------------------ splitting and joining

  function Split(s: string, sep: char): (parts: seq<string>)
    ensures parts != []
  {
    if s == "" then [""]
    else
      var rest := Split(s[1..], sep);
      if s[0] == sep then [""] + rest else [[s[0]] + rest[0]] + rest[1..]
  }

  function Join(parts: seq<string>, sep: char): string
    requires parts != []
  {
    if |parts| == 1 then parts[0] else parts[0] + [sep] + Join(parts[1..], sep)
  }

  function Replace(s: string, a: char, b: char): string {
    seq(|s|, i requires 0 <= i < |s| => if s[i] == a then b else s[i])
  }

  lemma {:induction false} SplitHasNoSeparator(s: string, sep: char)
    ensures forall part | part in Split(s, sep) :: sep !in part
  {
    if s != "" {
      SplitHasNoSeparator(s[1..], sep);
      var rest := Split(s[1..], sep);
      assert rest[0] in rest;
    }
  }

  /** Splitting at one separator and joining with another replaces it. */
  lemma {:induction false} SplitThenJoin(s: string, a: char, b: char)
    ensures Join(Split(s, a), b) == Replace(s, a, b)
  {
    if s != "" {
      SplitThenJoin(s[1..], a, b);
      var rest := Split(s[1..], a);
      ReplaceHead(s, a, b);
      if s[0] == a {
        EmptyJoined(rest, b);
      } else {
        JoinGrows([s[0]], rest, b);
      }
    }
  }

  lemma ReplaceHead(s: string, a: char, b: char)
    requires s != ""
    ensures Replace(s, a, b) == [if s[0] == a then b else s[0]] + Replace(s[1..], a, b)
  {
  }

  lemma EmptyJoined(parts: seq<string>, sep: char)
    requires parts != []
    ensures Join([""] + parts, sep) == [sep] + Join(parts, sep)
  {
    assert ([""] + parts)[1..] == parts;
    assert "" + [sep] == [sep];
  }

  lemma JoinGrows(head: string, parts: seq<string>, sep: char)
    requires parts != []
    ensures Join([head + parts[0]] + parts[1..], sep) == head + Join(parts, sep)
  {
    var grown := [head + parts[0]] + parts[1..];
    assert grown[1..] == parts[1..];
    if |parts| > 1 {
      var tail := [sep] + Join(parts[1..], sep);
      assert head + parts[0] + [sep] + Join(parts[1..], sep) == head + (parts[0] + [sep] + Join(parts[1..], sep));
    }
  }

  /** Parts without the separator come back from what they were joined into. */
  lemma {:induction false} JoinThenSplit(parts: seq<string>, sep: char)
    requires parts != [] && forall part | part in parts :: sep !in part
    ensures Split(Join(parts, sep), sep) == parts
  {
    hide Split;
    if |parts| == 1 {
      SplitWhole(parts[0], sep);
      assert parts == [parts[0]];
    } else {
      var first, rest := parts[0], parts[1..];
      JoinThenSplit(rest, sep);
      JoinFirst(parts, sep);
      SplitAtFirst(first, Join(rest, sep), sep);
      assert parts == [first] + rest;
    }
  }

  lemma SplitWhole(part: string, sep: char)
    requires sep !in part
    ensures Split(part, sep) == [part]
  {
    SplitPlain(part, "", sep);
    assert part + "" == part;
  }

  lemma JoinFirst(parts: seq<string>, sep: char)
    requires |parts| > 1
    ensures Join(parts, sep) == parts[0] + ([sep] + Join(parts[1..], sep))
  {
  }

  lemma SplitAtFirst(plain: string, tail: string, sep: char)
    requires sep !in plain
    ensures Split(plain + ([sep] + tail), sep) == [plain] + Split(tail, sep)
  {
    assert ([sep] + tail)[1..] == tail;
    assert Split([sep] + tail, sep) == [""] + Split(tail, sep);
    SplitPlain(plain, [sep] + tail, sep);
    assert plain + "" == plain;
  }

  lemma {:induction false} SplitPlain(plain: string, s: string, sep: char)
    requires sep !in plain
    ensures Split(plain + s, sep) == [plain + Split(s, sep)[0]] + Split(s, sep)[1..]
  {
    if plain == "" {
      assert plain + s == s && plain + Split(s, sep)[0] == Split(s, sep)[0];
      assert [Split(s, sep)[0]] + Split(s, sep)[1..] == Split(s, sep);
    } else {
      assert (plain + s)[1..] == plain[1..] + s;
      SplitPlain(plain[1..], s, sep);
      assert [plain[0]] + (plain[1..] + Split(s, sep)[0]) == plain + Split(s, sep)[0];
    }
  }

  // --------------------------------------------------------------------- qualified names

  datatype Qualified = Qualified(database: Option<string>, schema: Option<string>, table: string)

  datatype NameError = UnsafeTableName(name: string)

  predicate DotSegment(part: string) {
    part == "." || part == ".."
  }

  /** The first part that is refused, by the name it is refused under. */
  function Refused(parts: seq<string>, name: string): (r: Option<string>)
    ensures r.None? <==> forall part | part in parts :: SafeName(part) && !DotSegment(part)
    ensures r.Some? && (forall part | part in parts :: !DotSegment(part)) ==> r.value in parts && !SafeName(r.value)
  {
    if parts == [] then None
    else if !SafeName(parts[0]) then Some(parts[0])
    else if DotSegment(parts[0]) then Some(name)
    else Refused(parts[1..], name)
  }

  function ParseQualified(name: string): Result<Qualified, NameError> {
    var parts := Split(name, '.');
    var refused := Refused(parts, name);
    if refused.Some? then Err(UnsafeTableName(refused.value))
    else if |parts| == 1 then Ok(Qualified(None, None, parts[0]))
    else if |parts| == 2 then Ok(Qualified(None, Some(parts[0]), parts[1]))
    else if |parts| == 3 then Ok(Qualified(Some(parts[0]), Some(parts[1]), parts[2]))
    else Err(UnsafeTableName(name))
  }

  predicate Accepted(name: string) {
    ParseQualified(name).Ok?
  }

  function Present(q: Qualified): seq<string> {
    (if q.database.Some? then [q.database.value] else [])
    + (if q.schema.Some? then [q.schema.value] else [])
    + [q.table]
  }

  function RelativePath(name: string): Result<string, NameError> {
    match ParseQualified(name)
    case Ok(q) => Ok(Join(Present(q), '/'))
    case Err(e) => Err(e)
  }

  /** A name is accepted exactly when it has at most three parts and each is safe; the test
      for dot segments never decides anything. Its last part is the table, the one before that
      the schema, and the first of three the database. A refusal names an unsafe part, or the
      whole name when it only has too many. */
  lemma AcceptedExactly(name: string)
    ensures Accepted(name) <==>
            |Split(name, '.')| <= 3 && forall part | part in Split(name, '.') :: SafeName(part)
    ensures Accepted(name) ==>
      var q, parts := ParseQualified(name).value, Split(name, '.');
      && q.table == parts[|parts| - 1]
      && q.schema == (if |parts| >= 2 then Some(parts[|parts| - 2]) else None)
      && q.database == (if |parts| == 3 then Some(parts[0]) else None)
      && Present(q) == parts
    ensures !Accepted(name) ==>
      var refused := ParseQualified(name).error.name;
      if forall part | part in Split(name, '.') :: SafeName(part) then refused == name
      else refused in Split(name, '.') && !SafeName(refused)
  {
    NoDotSegments(name);
    hide Split, SafeName, DotSegment, Refused;
  }

  /** A character no part of a name may have: a quote, a semicolon, a backslash, a NUL, a bracket
      or white space. */
  predicate Forbidden(c: char) {
    c == '\'' || c == '"' || c == ';' || c == '\\' || c == '\0' || c == '[' || c == ']' || IsWhitespace(c)
  }

  function Dots(s: string): nat {
    if s == "" then 0 else (if s[0] == '.' then 1 else 0) + Dots(s[1..])
  }

  /** No part of the name, except perhaps the first, is empty. */
  predicate Separated(s: string) {
    && (s != "" ==> s[|s| - 1] != '.')
    && (forall i | 0 <= i < |s| - 1 :: s[i] != '.' || s[i + 1] != '.')
  }

  predicate Clean(s: string) {
    forall i | 0 <= i < |s| :: !Forbidden(s[i])
  }

  lemma SafeIsClean(part: string)
    ensures SafeName(part) <==> part != "" && Clean(part)
  {
    forall c: char ensures Forbidden(c) <==> c in "'\";\\\0[]" || IsWhitespace(c) {
    }
  }

  lemma NothingUnclean()
    ensures Clean("")
  {
  }

  lemma CleanStep(c: char, t: string)
    ensures Clean([c] + t) <==> !Forbidden(c) && Clean(t)
  {
    hide Forbidden;
    assert forall i | 0 <= i < |t| :: ([c] + t)[i + 1] == t[i];
    assert ([c] + t)[0] == c;
  }

  lemma {:induction false} SplitByCharacters(s: string)
    ensures var parts := Split(s, '.');
            && |parts| == Dots(s) + 1
            && (parts[0] == "" <==> s == "" || s[0] == '.')
            && (Clean(s) <==> forall i | 0 <= i < |parts| :: Clean(parts[i]))
            && (Separated(s) <==> forall i | 1 <= i < |parts| :: parts[i] != "")
  {
    if s != "" {
      var tail := s[1..];
      SplitByCharacters(tail);
      var rest, parts := Split(tail, '.'), Split(s, '.');
      hide Clean, Separated;
      assert s == [s[0]] + tail;
      CleanStep(s[0], tail);
      SeparatedStep(s);
      if s[0] == '.' {
        assert parts == [""] + rest && Clean("") by {
          NothingUnclean();
        }
        assert forall i | 0 <= i < |rest| :: parts[i + 1] == rest[i];
      } else {
        assert parts == [[s[0]] + rest[0]] + rest[1..];
        CleanStep(s[0], rest[0]);
        assert forall i | 1 <= i < |rest| :: parts[i] == rest[i];
      }
    }
  }

  lemma SeparatedStep(s: string)
    requires s != ""
    ensures Separated(s) <==> Separated(s[1..]) && (s[0] == '.' ==> s[1..] != "" && s[1] != '.')
  {
    var tail := s[1..];
    assert forall i | 0 <= i < |tail| :: tail[i] == s[i + 1];
    if Separated(tail) && (s[0] == '.' ==> tail != "" && s[1] != '.') {
      forall i | 0 <= i < |s| - 1 ensures s[i] != '.' || s[i + 1] != '.' {
        if i > 0 {
          assert tail[i - 1] == s[i] && tail[i] == s[i + 1];
        }
      }
    }
  }

  /** In terms of its characters: a name is accepted exactly when it has none that is forbidden,
      at most two dots, no two of them together and none at either end. */
  lemma AcceptedByCharacters(name: string)
    ensures Accepted(name) <==>
            Clean(name) && Dots(name) <= 2 && Separated(name) && name != "" && name[0] != '.'
  {
    AcceptedExactly(name);
    SplitByCharacters(name);
    var parts := Split(name, '.');
    hide Accepted, Split, SafeName, Clean, Separated;
    forall i | 0 <= i < |parts| ensures SafeName(parts[i]) <==> parts[i] != "" && Clean(parts[i]) {
      SafeIsClean(parts[i]);
    }
    assert (forall part | part in parts :: SafeName(part)) <==> (forall i | 0 <= i < |parts| :: SafeName(parts[i]));
  }

  lemma NoDotSegments(name: string)
    ensures forall part | part in Split(name, '.') :: !DotSegment(part)
  {
    SplitHasNoSeparator(name, '.');
    assert '.' in "." && '.' in "..";
  }

  /** The path a table is written under is its name with dots turned into slashes. */
  lemma PathIsName(name: string)
    requires Accepted(name)
    ensures RelativePath(name) == Ok(Replace(name, '.', '/'))
  {
    AcceptedExactly(name);
    SplitThenJoin(name, '.', '/');
  }

  /** Splitting the path on '/' and joining with '.' gives a slash-free name back. */
  lemma NameFromPath(name: string)
    requires Accepted(name) && '/' !in name
    ensures RelativePath(name).Ok? && Join(Split(RelativePath(name).value, '/'), '.') == name
  {
    PathIsName(name);
    var path := RelativePath(name).value;
    SplitThenJoin(path, '/', '.');
    assert Replace(path, '/', '.') == name;
  }

  /** Two accepted names share a path exactly when they differ only in where one has a dot
      and the other a slash. */
  lemma SamePathExactly(a: string, b: string)
    requires Accepted(a) && Accepted(b)
    ensures RelativePath(a) == RelativePath(b) <==>
            |a| == |b| && forall i | 0 <= i < |a| :: a[i] == b[i] || (a[i] in "./" && b[i] in "./")
  {
    PathIsName(a);
    PathIsName(b);
    var x, y := Replace(a, '.', '/'), Replace(b, '.', '/');
    if x == y {
      forall i | 0 <= i < |a| ensures a[i] == b[i] || (a[i] in "./" && b[i] in "./") {
        assert x[i] == y[i];
      }
    }
  }

  lemma SplitSamples()
    ensures Split("a/b", '.') == ["a/b"] && Split("a.b", '.') == ["a", "b"]
  {
    JoinThenSplit(["a/b"], '.');
    assert Join(["a/b"], '.') == "a/b";
    JoinThenSplit(["a", "b"], '.');
    assert ["a", "b"][1..] == ["b"];
    assert Join(["b"], '.') == "b";
    assert "a" + "." + "b" == "a.b";
  }

  /** Such a pair exists: a slash is not refused inside a part. */
  lemma SlashedNamesCollide()
    ensures Accepted("a/b") && Accepted("a.b") && RelativePath("a/b") == RelativePath("a.b")
  {
    hide Split, Join, ParseQualified, RelativePath, Accepted;
    SplitSamples();
    assert SafeName("a/b") && SafeName("a") && SafeName("b");
    AcceptedExactly("a/b");
    AcceptedExactly("a.b");
    PathIsName("a/b");
    PathIsName("a.b");
    assert Replace("a/b", '.', '/') == "a/b" == Replace("a.b", '.', '/');
  }

  // --------------------------------------------------------------------------- locations

  const CHECKPOINTS := "_streamer_checkpoints"

  function TrimEnd(s: string): (t: string)
    ensures t <= s && (t == "" || t[|t| - 1] != '/')
    ensures forall i | |t| <= i < |s| :: s[i] == '/'
    ensures s != "" && s[|s| - 1] != '/' ==> t == s
  {
    if s != "" && s[|s| - 1] == '/' then TrimEnd(s[..|s| - 1]) else s
  }

  /** Where a table's rows are written, and (with a checkpoint prefix) its checkpoint. */
  function UriFor(prefix: string, relative: string): string {
    TrimEnd(prefix) + "/" + relative
  }

  /** The checkpoint prefix when the caller gives none. */
  function DefaultCheckpoints(output: string): string {
    if output == "" then "" else TrimEnd(output) + "/" + CHECKPOINTS
  }

  /** Where rows and checkpoints go: `output_uri` and `checkpoint_uri`. */
  datatype Layout = Layout(output: string, checkpoints: string)

  function DefaultLayout(output: string): Layout {
    Layout(output, DefaultCheckpoints(output))
  }

  function DataAt(l: Layout, name: string): string
    requires Accepted(name)
  {
    UriFor(l.output, RelativePath(name).value)
  }

  function MarksAt(l: Layout, name: string): string
    requires Accepted(name)
  {
    UriFor(l.checkpoints, RelativePath(name).value)
  }

  lemma SamePrefix(prefix: string, a: string, b: string)
    ensures prefix + a == prefix + b <==> a == b
  {
    assert (prefix + a)[|prefix|..] == a && (prefix + b)[|prefix|..] == b;
  }

  lemma UriUnder(root: string, dir: string, relative: string)
    requires dir != "" && dir[|dir| - 1] != '/'
    ensures UriFor(root + "/" + dir, relative) == root + "/" + (dir + "/" + relative)
  {
    var prefix := root + "/" + dir;
    assert prefix[|prefix| - 1] == dir[|dir| - 1];
  }

  lemma UnderCheckpoints(output: string, name: string)
    requires output != "" && Accepted(name)
    ensures MarksAt(DefaultLayout(output), name) ==
            TrimEnd(output) + "/" + (CHECKPOINTS + "/" + RelativePath(name).value)
  {
    hide UriFor, TrimEnd, ParseQualified, Join;
    UriUnder(TrimEnd(output), CHECKPOINTS, RelativePath(name).value);
  }

  lemma SlashFreePathsDiffer(a: string, b: string)
    requires Accepted(a) && Accepted(b) && '/' !in a && '/' !in b
    ensures RelativePath(a).value == RelativePath(b).value <==> a == b
  {
    NameFromPath(a);
    NameFromPath(b);
  }

  /**
   * Locations. Slash-free names: distinct tables have distinct data locations and distinct
   * checkpoint locations; under the default layout a data location is a checkpoint location
   * exactly when one name is the other one prefixed with the checkpoint directory.
   */
  lemma Locations(output: string, a: string, b: string)
    requires output != "" && Accepted(a) && Accepted(b) && '/' !in a && '/' !in b
    ensures DataAt(DefaultLayout(output), a) == DataAt(DefaultLayout(output), b) <==> a == b
    ensures MarksAt(DefaultLayout(output), a) == MarksAt(DefaultLayout(output), b) <==> a == b
    ensures DataAt(DefaultLayout(output), a) == MarksAt(DefaultLayout(output), b) <==> a == CHECKPOINTS + "." + b
  {
    var prefix, pa, pb := TrimEnd(output) + "/", RelativePath(a).value, RelativePath(b).value;
    SlashFreePathsDiffer(a, b);
    SamePrefix(prefix, pa, pb);
    UnderCheckpoints(output, a);
    UnderCheckpoints(output, b);
    SamePrefix(prefix, CHECKPOINTS + "/" + pa, CHECKPOINTS + "/" + pb);
    SamePrefix(CHECKPOINTS + "/", pa, pb);
    SamePrefix(prefix, pa, CHECKPOINTS + "/" + pb);
    PathIsName(a);
    PathIsName(b);
    NestedName(a, b);
  }

  lemma NestedName(a: string, b: string)
    requires '/' !in a && '/' !in b
    ensures Replace(a, '.', '/') == CHECKPOINTS + "/" + Replace(b, '.', '/') <==> a == CHECKPOINTS + "." + b
  {
    var nested := CHECKPOINTS + "." + b;
    assert Replace(nested, '.', '/') == CHECKPOINTS + "/" + Replace(b, '.', '/');
    if Replace(a, '.', '/') == Replace(nested, '.', '/') {
      assert '/' !in nested;
      forall i | 0 <= i < |a| ensures a[i] == nested[i] {
        assert Replace(a, '.', '/')[i] == Replace(nested, '.', '/')[i];
      }
    }
  }

  /** So a first part other than the checkpoint directory keeps the two layouts apart. */
  lemma LayoutsApart(output: string, a: string, b: string)
    requires output != "" && Accepted(a) && Accepted(b) && '/' !in a && '/' !in b
    requires Split(a, '.')[0] != CHECKPOINTS
    ensures DataAt(DefaultLayout(output), a) != MarksAt(DefaultLayout(output), b)
  {
    Locations(output, a, b);
    NoDot();
    NestedFirstPart(CHECKPOINTS, b);
  }

  lemma NoDot()
    ensures '.' !in CHECKPOINTS
  {
  }

  lemma NestedFirstPart(first: string, b: string)
    requires '.' !in first
    ensures Split(first + "." + b, '.')[0] == first
  {
    SplitPlain(first, "." + b, '.');
    assert first + ("." + b) == first + "." + b;
    assert Split("." + b, '.')[0] == "";
    assert first + "" == first;
  }
}

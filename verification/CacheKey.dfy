/** The key of the generated query caches (internal/sqlboiler/boil_types.go): kind, column names and
    default names written one after another without separators. */
module CacheKey {

  datatype Columns = Columns(kind: nat, cols: seq<string>)

  function Concat(names: seq<string>): string {
    if names == [] then "" else names[0] + Concat(names[1..])
  }

  function Digit(d: nat): char
    requires d < 10
  {
    ['0', '1', '2', '3', '4', '5', '6', '7', '8', '9'][d]
  }

  predicate IsDigit(c: char) {
    '0' <= c <= '9'
  }

  /** `strconv.Itoa` of a non-negative number. */
  function Itoa(n: nat): (s: string)
    ensures s != "" && forall i :: 0 <= i < |s| ==> IsDigit(s[i])
  {
    if n < 10 then [Digit(n)] else Itoa(n / 10) + [Digit(n % 10)]
  }

  function Tail(nzDefaults: seq<string>): string {
    if nzDefaults == [] then "" else "." + Concat(nzDefaults)
  }

  function Key(columns: Columns, nzDefaults: seq<string>): string {
    Itoa(columns.kind) + Concat(columns.cols) + Tail(nzDefaults)
  }

  /** `makeCacheKey`. */
  method MakeCacheKey(columns: Columns, nzDefaults: seq<string>) returns (key: string)
    ensures key == Key(columns, nzDefaults)
  {
    var buf := Itoa(columns.kind);
    for i := 0 to |columns.cols|
      invariant buf == Itoa(columns.kind) + Concat(columns.cols[..i])
    {
      ConcatAdds(columns.cols, i);
      buf := buf + columns.cols[i];
    }
    assert columns.cols[..|columns.cols|] == columns.cols;
    if |nzDefaults| != 0 {
      buf := buf + ".";
    }
    ghost var head := buf;
    for i := 0 to |nzDefaults|
      invariant buf == head + Concat(nzDefaults[..i])
    {
      ConcatAdds(nzDefaults, i);
      buf := buf + nzDefaults[i];
    }
    assert nzDefaults[..|nzDefaults|] == nzDefaults;
    key := buf;
  }

  lemma {:induction false} ConcatAdds(names: seq<string>, i: nat)
    requires i < |names|
    ensures Concat(names[..i + 1]) == Concat(names[..i]) + names[i]
  {
    if i == 0 {
      assert names[..1] == [names[0]];
      assert Concat([names[0]]) == names[0] + Concat([]);
    } else {
      ConcatAdds(names[1..], i - 1);
      assert names[..i + 1][1..] == names[1..][..i];
      assert names[..i][1..] == names[1..][..i - 1];
    }
  }

  // ---------------------------------------------------------------- column sets

  predicate Over(names: seq<string>, table: set<string>) {
    forall i :: 0 <= i < |names| ==> names[i] in table
  }

  /** Column names contain no dot and begin with something other than a digit. */
  ghost predicate Plain(table: set<string>) {
    forall u :: u in table ==> u != "" && !IsDigit(u[0]) && '.' !in u
  }

  ghost predicate UniquelyDecodable(table: set<string>) {
    forall a, b :: Over(a, table) && Over(b, table) && Concat(a) == Concat(b) ==> a == b
  }

  /** Requests on the table's own columns. */
  predicate OnTable(table: set<string>, columns: Columns, nzDefaults: seq<string>) {
    Over(columns.cols, table) && Over(nzDefaults, table)
  }

  ghost predicate KeysInjective(table: set<string>) {
    forall c, nz, c', nz' ::
      OnTable(table, c, nz) && OnTable(table, c', nz') && Key(c, nz) == Key(c', nz') ==> c == c' && nz == nz'
  }

  // ---------------------------------------------------------------- the key decodes

  function NumberOf(s: string): nat {
    if s == "" then 0
    else
      var d := s[|s| - 1] as int - '0' as int;
      10 * NumberOf(s[..|s| - 1]) + if d >= 0 then d else 0
  }

  lemma {:induction false} ItoaDecodes(n: nat)
    ensures NumberOf(Itoa(n)) == n
  {
    if n < 10 {
      assert [Digit(n)][..0] == "";
    } else {
      ItoaDecodes(n / 10);
      assert Itoa(n)[..|Itoa(n)| - 1] == Itoa(n / 10);
    }
  }

  lemma {:induction false} ConcatHasNoDot(names: seq<string>, table: set<string>)
    requires Over(names, table) && Plain(table)
    ensures '.' !in Concat(names)
    ensures names != [] ==> Concat(names) != "" && !IsDigit(Concat(names)[0])
  {
    if names != [] {
      ConcatHasNoDot(names[1..], table);
    }
  }

  /** Two splits of one string, each at the end of its leading characters of one kind, agree. */
  lemma {:induction false} SplitsAgree(a: string, r: string, b: string, s: string, kind: char -> bool)
    requires a + r == b + s
    requires (forall i :: 0 <= i < |a| ==> kind(a[i])) && (forall i :: 0 <= i < |b| ==> kind(b[i]))
    requires (r != "" ==> !kind(r[0])) && (s != "" ==> !kind(s[0]))
    ensures a == b && r == s
    decreases |a|
  {
    if |a| > |b| {
      SplitsAgree(b, s, a, r, kind);
    } else if a == "" {
      assert r == b + s;
    } else {
      assert (a + r)[1..] == a[1..] + r && (b + s)[1..] == b[1..] + s;
      assert (a + r)[0] == a[0] && (b + s)[0] == b[0];
      SplitsAgree(a[1..], r, b[1..], s, kind);
      assert a == [a[0]] + a[1..] && b == [b[0]] + b[1..];
    }
  }

  lemma TailDecodes(nz: seq<string>, nz': seq<string>, table: set<string>)
    requires Over(nz, table) && Over(nz', table) && UniquelyDecodable(table) && Tail(nz) == Tail(nz')
    ensures nz == nz'
  {
    if nz != [] {
      assert Tail(nz)[1..] == Concat(nz);
      assert Tail(nz')[1..] == Concat(nz');
    }
  }

  lemma KeyDecodes(table: set<string>, c: Columns, nz: seq<string>, c': Columns, nz': seq<string>)
    requires Plain(table) && UniquelyDecodable(table)
    requires OnTable(table, c, nz) && OnTable(table, c', nz') && Key(c, nz) == Key(c', nz')
    ensures c == c' && nz == nz'
  {
    RestIsNoDigit(c.cols, nz, table);
    RestIsNoDigit(c'.cols, nz', table);
    KeySplits(c, nz);
    KeySplits(c', nz');
    SplitsAgree(Itoa(c.kind), Concat(c.cols) + Tail(nz), Itoa(c'.kind), Concat(c'.cols) + Tail(nz'), IsDigit);
    ItoaDecodes(c.kind);
    ItoaDecodes(c'.kind);
    ConcatHasNoDot(c.cols, table);
    ConcatHasNoDot(c'.cols, table);
    SplitsAgree(Concat(c.cols), Tail(nz), Concat(c'.cols), Tail(nz'), ch => ch != '.');
    TailDecodes(nz, nz', table);
  }

  lemma KeySplits(c: Columns, nz: seq<string>)
    ensures Key(c, nz) == Itoa(c.kind) + (Concat(c.cols) + Tail(nz))
  {
  }

  lemma RestIsNoDigit(cols: seq<string>, nz: seq<string>, table: set<string>)
    requires Plain(table) && Over(cols, table)
    ensures var rest := Concat(cols) + Tail(nz);
            rest != "" ==> !IsDigit(rest[0])
  {
    ConcatHasNoDot(cols, table);
  }

  /** On a table whose column names contain no dot and begin with no digit, cache keys are injective
      exactly when the names are uniquely decodable. */
  lemma KeysInjectiveExactly(table: set<string>)
    requires Plain(table)
    ensures KeysInjective(table) <==> UniquelyDecodable(table)
  {
    if UniquelyDecodable(table) {
      forall c, nz, c', nz' | OnTable(table, c, nz) && OnTable(table, c', nz') && Key(c, nz) == Key(c', nz')
        ensures c == c' && nz == nz'
      {
        KeyDecodes(table, c, nz, c', nz');
      }
    }
    if KeysInjective(table) {
      forall a, b | Over(a, table) && Over(b, table) && Concat(a) == Concat(b) ensures a == b {
        assert OnTable(table, Columns(0, a), []) && OnTable(table, Columns(0, b), []);
        assert Key(Columns(0, a), []) == Key(Columns(0, b), []);
      }
    }
  }

  // ---------------------------------------------------------------- a criterion for tables

  ghost predicate ProperPrefix(u: string, v: string) {
    |u| < |v| && v[..|u|] == u
  }

  function First(s: string): string {
    if s == "" then "" else s[..1]
  }

  /** Where one name continues another, it goes on with a character that begins no name. */
  ghost predicate Separable(table: set<string>) {
    forall u, v, w :: u in table && v in table && w in table && ProperPrefix(u, v) ==> First(w) != First(v[|u|..])
  }

  ghost predicate PrefixFree(table: set<string>) {
    forall u, v :: u in table && v in table ==> !ProperPrefix(u, v)
  }

  lemma FirstOfConcat(names: seq<string>, table: set<string>)
    requires Plain(table) && Over(names, table)
    ensures names == [] ==> First(Concat(names)) == ""
    ensures names != [] ==> names[0] in table && First(Concat(names)) == First(names[0])
  {
  }

  /** Two names that begin one concatenation have the same length. */
  lemma HeadsMatch(table: set<string>, u: string, rest: seq<string>, v: string, y: string)
    requires Plain(table) && Separable(table) && Over(rest, table) && u in table && v in table
    requires u + Concat(rest) == v + y && |u| <= |v|
    ensures u == v && Concat(rest) == y
  {
    FirstOfConcat(rest, table);
    var more := v[|u|..];
    assert u == (u + Concat(rest))[..|u|] == (v + y)[..|u|] == v[..|u|];
    assert Concat(rest) == (u + Concat(rest))[|u|..] == (v + y)[|u|..] == more + y;
    assert more == "" || ProperPrefix(u, v);
  }

  lemma {:induction false} SeparableDecodes(table: set<string>, a: seq<string>, b: seq<string>)
    requires Plain(table) && Separable(table) && Over(a, table) && Over(b, table) && Concat(a) == Concat(b)
    ensures a == b
  {
    if a == [] || b == [] {
      ConcatHasNoDot(a, table);
      ConcatHasNoDot(b, table);
    } else {
      if |a[0]| <= |b[0]| {
        HeadsMatch(table, a[0], a[1..], b[0], Concat(b[1..]));
      } else {
        HeadsMatch(table, b[0], b[1..], a[0], Concat(a[1..]));
      }
      SeparableDecodes(table, a[1..], b[1..]);
      assert a == [a[0]] + a[1..] && b == [b[0]] + b[1..];
    }
  }

  lemma SeparableIsDecodable(table: set<string>)
    requires Plain(table) && Separable(table)
    ensures UniquelyDecodable(table) && KeysInjective(table)
  {
    forall a, b | Over(a, table) && Over(b, table) && Concat(a) == Concat(b) ensures a == b {
      SeparableDecodes(table, a, b);
    }
    KeysInjectiveExactly(table);
  }

  lemma PrefixFreeIsSeparable(table: set<string>)
    requires PrefixFree(table)
    ensures Separable(table)
  {
  }

  /** Plain names alone are not enough. */
  lemma CollidingTable()
    ensures Plain({"a", "b", "ab"}) && !KeysInjective({"a", "b", "ab"})
  {
    var table := {"a", "b", "ab"};
    assert forall u :: u in table ==> u != "" && !IsDigit(u[0]) && '.' !in u;
    var c, c' := Columns(0, ["ab"]), Columns(0, ["a", "b"]);
    assert Concat(c.cols) == "ab" && c'.cols[1..] == ["b"] && Concat(c'.cols) == "ab";
    assert OnTable(table, c, []) && OnTable(table, c', []) && Key(c, []) == Key(c', []);
    assert |c.cols| != |c'.cols|;
  }

  // ---------------------------------------------------------------- the generated tables

  const CRAWL_MODE_CHANGES: set<string> := {
    "id", "source_id", "project_id", "trigger_type", "from_mode", "to_mode", "from_interval_minutes",
    "to_interval_minutes", "reason", "event_ref", "triggered_by", "triggered_at", "created_at"}

  const CRAWL_MODE_DEFAULTS: set<string> := {
    "mode", "interval_minutes", "mode_multiplier", "description", "created_at", "updated_at"}

  lemma PrefixAgrees(u: string, v: string, k: nat)
    requires ProperPrefix(u, v) && k < |u|
    ensures u[k] == v[k]
  {
    assert v[..|u|][k] == v[k];
  }

  /** The first character of a name leaves at most five candidates. */
  lemma ChangesByFirst(u: string)
    requires u in CRAWL_MODE_CHANGES
    ensures u != "" && !IsDigit(u[0])
    ensures u[0] == 't' ==> u in {"trigger_type", "to_mode", "to_interval_minutes", "triggered_by", "triggered_at"}
    ensures u[0] == 'f' ==> u in {"from_mode", "from_interval_minutes"}
    ensures (u[0] == 'i' ==> u == "id") && (u[0] == 's' ==> u == "source_id") && (u[0] == 'p' ==> u == "project_id")
    ensures (u[0] == 'r' ==> u == "reason") && (u[0] == 'e' ==> u == "event_ref") && (u[0] == 'c' ==> u == "created_at")
    ensures u[0] in "tfisprec"
  {
  }

  lemma ChangesHaveNoDot(u: string)
    requires u in CRAWL_MODE_CHANGES
    ensures '.' !in u
  {
  }

  lemma ChangesPair(u: string, v: string)
    requires u in CRAWL_MODE_CHANGES && v in CRAWL_MODE_CHANGES
    ensures !ProperPrefix(u, v)
  {
    ChangesByFirst(u);
    ChangesByFirst(v);
    if ProperPrefix(u, v) {
      PrefixAgrees(u, v, 0);
      if u[0] == 't' {
        TimesArePrefixFree(u, v);
      } else if u[0] == 'f' {
        FromsArePrefixFree(u, v);
      }
    }
  }

  lemma FromsArePrefixFree(u: string, v: string)
    requires u in {"from_mode", "from_interval_minutes"} && v in {"from_mode", "from_interval_minutes"}
    ensures !ProperPrefix(u, v)
  {
    if ProperPrefix(u, v) {
      PrefixAgrees(u, v, 5);
    }
  }

  lemma TimesArePrefixFree(u: string, v: string)
    requires u in {"trigger_type", "to_mode", "to_interval_minutes", "triggered_by", "triggered_at"}
    requires v in {"trigger_type", "to_mode", "to_interval_minutes", "triggered_by", "triggered_at"}
    ensures !ProperPrefix(u, v)
  {
    if ProperPrefix(u, v) {
      assert |u| >= 7;
      PrefixAgrees(u, v, 1);
      PrefixAgrees(u, v, 3);
      if |u| >= 12 {
        PrefixAgrees(u, v, 7);
        PrefixAgrees(u, v, 10);
      }
    }
  }

  /** No column name of crawl_mode_changes continues another, so its cache keys are injective. */
  lemma CrawlModeChangesKeys()
    ensures PrefixFree(CRAWL_MODE_CHANGES) && KeysInjective(CRAWL_MODE_CHANGES)
  {
    forall u | u in CRAWL_MODE_CHANGES ensures u != "" && !IsDigit(u[0]) && '.' !in u {
      ChangesByFirst(u);
      ChangesHaveNoDot(u);
    }
    forall u, v | u in CRAWL_MODE_CHANGES && v in CRAWL_MODE_CHANGES ensures !ProperPrefix(u, v) {
      ChangesPair(u, v);
    }
    PrefixFreeIsSeparable(CRAWL_MODE_CHANGES);
    SeparableIsDecodable(CRAWL_MODE_CHANGES);
  }

  lemma DefaultsByFirst(u: string)
    requires u in CRAWL_MODE_DEFAULTS
    ensures u != "" && !IsDigit(u[0]) && u[0] in "midcu" && '.' !in u
    ensures u[0] == 'm' ==> u in {"mode", "mode_multiplier"}
    ensures (u[0] == 'i' ==> u == "interval_minutes") && (u[0] == 'd' ==> u == "description")
    ensures (u[0] == 'c' ==> u == "created_at") && (u[0] == 'u' ==> u == "updated_at")
  {
  }

  lemma DefaultsPair(u: string, v: string)
    requires u in CRAWL_MODE_DEFAULTS && v in CRAWL_MODE_DEFAULTS && ProperPrefix(u, v)
    ensures u == "mode" && v == "mode_multiplier" && First(v[|u|..]) == "_"
  {
    DefaultsByFirst(u);
    DefaultsByFirst(v);
    PrefixAgrees(u, v, 0);
  }

  /** In crawl_mode_defaults "mode" begins "mode_multiplier", which goes on with an underscore; as no
      name begins with one, the keys are injective all the same. */
  lemma CrawlModeDefaultsKeys()
    ensures !PrefixFree(CRAWL_MODE_DEFAULTS) && KeysInjective(CRAWL_MODE_DEFAULTS)
  {
    assert ProperPrefix("mode", "mode_multiplier");
    forall u | u in CRAWL_MODE_DEFAULTS ensures u != "" && !IsDigit(u[0]) && '.' !in u && First(u) != "_" {
      DefaultsByFirst(u);
    }
    forall u, v, w | u in CRAWL_MODE_DEFAULTS && v in CRAWL_MODE_DEFAULTS && w in CRAWL_MODE_DEFAULTS && ProperPrefix(u, v)
      ensures First(w) != First(v[|u|..])
    {
      DefaultsPair(u, v);
    }
    SeparableIsDecodable(CRAWL_MODE_DEFAULTS);
  }

  // ---------------------------------------------------------------- data_sources

  const DATA_SOURCES: set<string> := {
    "id", "project_id", "name", "description", "source_type", "source_category",
    "status", "config", "account_ref", "mapping_rules", "onboarding_status", "dryrun_status",
    "dryrun_last_result_id", "crawl_mode", "crawl_interval_minutes", "next_crawl_at", "last_crawl_at", "last_success_at",
    "last_error_at", "last_error_message", "webhook_id", "webhook_secret_encrypted", "created_by", "activated_at",
    "paused_at", "archived_at", "created_at", "updated_at", "deleted_at"}

  /** The columns of data_sources by first character. */
  function SourceColumnsAt(c: char): set<string> {
    match c
    case 'p' => {"project_id", "paused_at"}
    case 'n' => {"name", "next_crawl_at"}
    case 'd' => {"description", "dryrun_status", "dryrun_last_result_id", "deleted_at"}
    case 's' => {"source_type", "source_category", "status"}
    case 'c' => {"config", "crawl_mode", "crawl_interval_minutes", "created_by", "created_at"}
    case 'a' => {"account_ref", "activated_at", "archived_at"}
    case 'l' => {"last_crawl_at", "last_success_at", "last_error_at", "last_error_message"}
    case 'w' => {"webhook_id", "webhook_secret_encrypted"}
    case 'i' => {"id"}
    case 'm' => {"mapping_rules"}
    case 'o' => {"onboarding_status"}
    case 'u' => {"updated_at"}
    case _ => {}
  }

  lemma SourcesByFirst(u: string)
    requires u in DATA_SOURCES
    ensures u != "" && !IsDigit(u[0]) && u in SourceColumnsAt(u[0])
  {
  }

  lemma SourcesHaveNoDot(c: char, u: string)
    requires u in SourceColumnsAt(c)
    ensures '.' !in u
  {
    if c in "pnd" {
      NoDotFew(c, u);
    } else if c in "saw" {
      NoDotMore(c, u);
    } else if c in "cl" {
      NoDotMost(c, u);
    }
  }

  lemma NoDotFew(c: char, u: string)
    requires c in "pnd" && u in SourceColumnsAt(c)
    ensures '.' !in u
  {
  }

  lemma NoDotMore(c: char, u: string)
    requires c in "saw" && u in SourceColumnsAt(c)
    ensures '.' !in u
  {
  }

  lemma NoDotMost(c: char, u: string)
    requires c in "cl" && u in SourceColumnsAt(c)
    ensures '.' !in u
  {
  }

  /** Where a name continued by another must agree with it; any two columns with the same first
      character differ at one of these positions. */
  lemma Agreements(u: string, v: string)
    requires ProperPrefix(u, v) && |u| >= 2
    ensures u[1] == v[1]
    ensures |u| >= 9 ==> u[2] == v[2] && u[5] == v[5] && u[6] == v[6] && u[7] == v[7] && u[8] == v[8]
    ensures |u| >= 12 ==> u[11] == v[11]
  {
    assert forall k :: 0 <= k < |u| ==> v[..|u|][k] == v[k];
  }

  lemma SourceColumnsPart(c: char, u: string, v: string)
    requires u in SourceColumnsAt(c) && v in SourceColumnsAt(c)
    ensures !ProperPrefix(u, v)
  {
    if c in "cd" {
      ManyPart(c, u, v);
    } else if ProperPrefix(u, v) {
      Agreements(u, v);
    }
  }

  lemma ManyPart(c: char, u: string, v: string)
    requires c in "cd" && u in SourceColumnsAt(c) && v in SourceColumnsAt(c)
    ensures !ProperPrefix(u, v)
  {
    if ProperPrefix(u, v) {
      Agreements(u, v);
    }
  }

  /** No column name of data_sources continues another either. */
  lemma DataSourcesKeys()
    ensures PrefixFree(DATA_SOURCES) && KeysInjective(DATA_SOURCES)
  {
    forall u | u in DATA_SOURCES ensures u != "" && !IsDigit(u[0]) && '.' !in u {
      SourcesByFirst(u);
      SourcesHaveNoDot(u[0], u);
    }
    forall u, v | u in DATA_SOURCES && v in DATA_SOURCES ensures !ProperPrefix(u, v) {
      SourcesPair(u, v);
    }
    PrefixFreeIsSeparable(DATA_SOURCES);
    SeparableIsDecodable(DATA_SOURCES);
  }

  lemma SourcesPair(u: string, v: string)
    requires u in DATA_SOURCES && v in DATA_SOURCES
    ensures !ProperPrefix(u, v)
  {
    SourcesByFirst(u);
    SourcesByFirst(v);
    if ProperPrefix(u, v) {
      PrefixAgrees(u, v, 0);
      SourceColumnsPart(u[0], u, v);
    }
  }
}

/**
 * The `search_qmgr_dump` tool: find which queue managers, on which hosts,
 * hold an object whose manifest row mentions the search text, filtered by
 * object type and split by the hostname gate into reachable and restricted
 * systems.
 */
module QmgrSearch {
  import opened Wrappers
  import opened Text
  import opened Seqs
  import opened Manifest
  import HostnameGate

  /**
   * The row's cells as the text search reads them, stripped. `df.astype(str)`
   * prints a parsed `extractedat` and an empty (NaN) cell differently; the
   * manifest model keeps the file's text for both.
   */
  function Cells(r: Row): seq<string>
  {
    [r.extractedAt, r.hostname, r.qmgr, r.objectType, r.mqscCommand]
  }

  /** Some column of the row contains the search text literally, ignoring letter case. */
  predicate MatchesRow(search: string, r: Row)
  {
    exists c | c in Cells(r) :: Contains(Lower(c), Lower(search))
  }

  /**
   * The type filter in force: the caller's `object_type` when it is
   * non-empty, otherwise one inferred from a `QL.`, `QA.` or `QR.` prefix of
   * the search text; the empty string means no filter.
   */
  function InferredType(objectType: Option<string>, search: string): (t: string)
    ensures t == "" || t == "QLOCAL" || t == "QALIAS" || t == "QREMOTE" || objectType == Some(t)
  {
    if objectType.Some? && objectType.value != "" then objectType.value
    else if StartsWith(Upper(search), "QL.") then "QLOCAL"
    else if StartsWith(Upper(search), "QA.") then "QALIAS"
    else if StartsWith(Upper(search), "QR.") then "QREMOTE"
    else ""
  }

  /** The object types the pseudo-type `QUEUES` stands for. */
  const QueueTypes: seq<string> := ["QLOCAL", "QREMOTE", "QMODEL", "QALIAS"]

  /** The row passes the filter `inf` (compared upper-cased; `QUEUES` selects every queue type). */
  predicate PassesTypeFilter(inf: string, r: Row)
  {
    inf == "" ||
    if Upper(inf) == "QUEUES" then Upper(r.objectType) in QueueTypes
    else Upper(r.objectType) == Upper(inf)
  }

  /** A row that matches the text and passes the type filter. */
  predicate Selected(search: string, inf: string, r: Row)
  {
    MatchesRow(search, r) && PassesTypeFilter(inf, r)
  }

  /** The columns the listing shows: hostname, queue manager, object type. */
  type Triple = (string, string, string)

  function TripleOf(r: Row): Triple { (r.hostname, r.qmgr, r.objectType) }

  /** The five outcomes of a search. */
  datatype SearchResult =
    | NoRecords
    | NotFound
    | WrongType(inferred: string, foundTypes: seq<string>)
    | RestrictedOnly
    | Listing(allowed: seq<Triple>, restricted: seq<Triple>)

  function Matching(table: Table, search: string): seq<Row>
  {
    Filter(table, (r: Row) => MatchesRow(search, r))
  }

  function OfType(rows: seq<Row>, inf: string): seq<Row>
  {
    Filter(rows, (r: Row) => PassesTypeFilter(inf, r))
  }

  function OnAllowedHost(prefixes: seq<string>, rows: seq<Row>): seq<Row>
  {
    Filter(rows, (r: Row) => HostnameGate.Allowed(prefixes, r.hostname))
  }

  function OnRestrictedHost(prefixes: seq<string>, rows: seq<Row>): seq<Row>
  {
    Filter(rows, (r: Row) => !HostnameGate.Allowed(prefixes, r.hostname))
  }

  function Triples(rows: seq<Row>): (ts: seq<Triple>)
    ensures NoDups(ts)
    ensures forall t :: t in ts <==> exists r | r in rows :: TripleOf(r) == t
  {
    var all := MapSeq(rows, TripleOf);
    assert forall t :: t in all <==> exists r | r in rows :: TripleOf(r) == t by {
      forall t ensures t in all <==> exists r | r in rows :: TripleOf(r) == t {
        if t in all {
          var i :| 0 <= i < |all| && all[i] == t;
          assert rows[i] in rows;
        }
        if exists r | r in rows :: TripleOf(r) == t {
          var r :| r in rows && TripleOf(r) == t;
          var i :| 0 <= i < |rows| && rows[i] == r;
          assert all[i] == t;
        }
      }
    }
    Distinct(all)
  }

  function TypesOf(rows: seq<Row>): (ts: seq<string>)
    ensures NoDups(ts)
    ensures forall t :: t in ts <==> exists r | r in rows :: r.objectType == t
  {
    var all := MapSeq(rows, (r: Row) => r.objectType);
    assert forall t :: t in all <==> exists r | r in rows :: r.objectType == t by {
      forall t ensures t in all <==> exists r | r in rows :: r.objectType == t {
        if t in all {
          var i :| 0 <= i < |all| && all[i] == t;
          assert rows[i] in rows;
        }
        if exists r | r in rows :: r.objectType == t {
          var r :| r in rows && r.objectType == t;
          var i :| 0 <= i < |rows| && rows[i] == r;
          assert all[i] == t;
        }
      }
    }
    Distinct(all)
  }

  lemma MatchingRows(table: Table, search: string)
    ensures forall r :: r in Matching(table, search) <==> r in table && MatchesRow(search, r)
  {
  }

  lemma TypedRows(rows: seq<Row>, inf: string)
    ensures forall r :: r in OfType(rows, inf) <==> r in rows && PassesTypeFilter(inf, r)
  {
  }

  lemma HostRows(prefixes: seq<string>, rows: seq<Row>)
    ensures forall r :: r in OnAllowedHost(prefixes, rows) <==> r in rows && HostnameGate.Allowed(prefixes, r.hostname)
    ensures forall r :: r in OnRestrictedHost(prefixes, rows) <==> r in rows && !HostnameGate.Allowed(prefixes, r.hostname)
  {
  }

  /** The rows a search selects: textual match and type filter. */
  function SelectedRows(table: Table, search: string, inf: string): (rows: seq<Row>)
    ensures forall r :: r in rows <==> r in table && Selected(search, inf, r)
  {
    MatchingRows(table, search);
    TypedRows(Matching(table, search), inf);
    OfType(Matching(table, search), inf)
  }

  /**
   * The decision `search_qmgr_dump` takes, before formatting: empty table,
   * no textual match, no match of the right type, matches only on
   * restricted hosts, or the distinct (host, queue manager, type) triples on
   * allowed and on restricted hosts.
   */
  function Search(prefixes: seq<string>, table: Table, search: string, objectType: Option<string>): (res: SearchResult)
    ensures res.NoRecords? <==> table == []
  {
    if table == [] then NoRecords
    else
      var total := Matching(table, search);
      if total == [] then NotFound
      else
        var inf := InferredType(objectType, search);
        var typed := SelectedRows(table, search, inf);
        if typed == [] then WrongType(inf, TypesOf(total))
        else
          var allowed := OnAllowedHost(prefixes, typed);
          if allowed == [] then RestrictedOnly
          else Listing(Triples(allowed), Triples(OnRestrictedHost(prefixes, typed)))
  }

  lemma EmptyIffNoElement<T>(s: seq<T>)
    ensures s == [] <==> forall x :: x !in s
  {
    if s != [] { assert s[0] in s; }
  }

  /** "Not found" is reported exactly when the table is non-empty and no row mentions the text. */
  lemma SearchNotFound(prefixes: seq<string>, table: Table, search: string, objectType: Option<string>)
    ensures Search(prefixes, table, search, objectType).NotFound? <==>
      table != [] && forall r | r in table :: !MatchesRow(search, r)
  {
    MatchingRows(table, search);
    EmptyIffNoElement(Matching(table, search));
  }

  /**
   * A wrong-type answer means some row mentions the text, no such row has
   * the inferred type, and the listed types are the distinct types of the
   * rows that mention it.
   */
  lemma SearchWrongType(prefixes: seq<string>, table: Table, search: string, objectType: Option<string>)
    requires Search(prefixes, table, search, objectType).WrongType?
    ensures var res := Search(prefixes, table, search, objectType);
      res.inferred == InferredType(objectType, search) && res.inferred != ""
      && (exists r | r in table :: MatchesRow(search, r))
      && (forall r | r in table :: !Selected(search, res.inferred, r))
      && NoDups(res.foundTypes)
      && (forall t :: t in res.foundTypes <==> exists r | r in table && MatchesRow(search, r) :: r.objectType == t)
  {
    var inf := InferredType(objectType, search);
    var total := Matching(table, search);
    MatchingRows(table, search);
    EmptyIffNoElement(total);
    EmptyIffNoElement(SelectedRows(table, search, inf));
    var x :| x in total;
    assert inf == "" ==> Selected(search, inf, x);
  }

  /** Matches that survive the type filter but sit only on restricted hosts are refused as a whole. */
  lemma SearchRestrictedOnly(prefixes: seq<string>, table: Table, search: string, objectType: Option<string>)
    requires Search(prefixes, table, search, objectType).RestrictedOnly?
    ensures var inf := InferredType(objectType, search);
      (exists r | r in table :: Selected(search, inf, r))
      && forall r | r in table && Selected(search, inf, r) :: !HostnameGate.Allowed(prefixes, r.hostname)
  {
    var inf := InferredType(objectType, search);
    var typed := SelectedRows(table, search, inf);
    HostRows(prefixes, typed);
    EmptyIffNoElement(typed);
    EmptyIffNoElement(OnAllowedHost(prefixes, typed));
  }

  /**
   * A listing holds each distinct (host, queue manager, type) triple of the
   * selected rows once: on the reachable side the triples of rows on
   * allowed hosts, on the restricted side the others; the reachable side is
   * never empty.
   */
  lemma SearchListing(prefixes: seq<string>, table: Table, search: string, objectType: Option<string>)
    requires Search(prefixes, table, search, objectType).Listing?
    ensures var res := Search(prefixes, table, search, objectType);
      var inf := InferredType(objectType, search);
      res.allowed != [] && NoDups(res.allowed) && NoDups(res.restricted)
      && (forall t :: t in res.allowed <==>
            exists r | r in table && Selected(search, inf, r) && HostnameGate.Allowed(prefixes, r.hostname) :: TripleOf(r) == t)
      && (forall t :: t in res.restricted <==>
            exists r | r in table && Selected(search, inf, r) && !HostnameGate.Allowed(prefixes, r.hostname) :: TripleOf(r) == t)
  {
    var inf := InferredType(objectType, search);
    var typed := SelectedRows(table, search, inf);
    HostRows(prefixes, typed);
    var allowed := OnAllowedHost(prefixes, typed);
    assert allowed != [];
    assert allowed[0] in allowed;
  }

  /** Whatever the filters, a table with a textual match is never reported as "not found". */
  lemma MatchIsNeverNotFound(prefixes: seq<string>, table: Table, search: string, objectType: Option<string>, r: Row)
    requires r in table && MatchesRow(search, r)
    ensures !Search(prefixes, table, search, objectType).NotFound?
    ensures !Search(prefixes, table, search, objectType).NoRecords?
  {
    SearchNotFound(prefixes, table, search, objectType);
  }

  /** A host is either reachable or restricted, so no triple is listed on both sides. */
  lemma ListingSidesDisjoint(prefixes: seq<string>, table: Table, search: string, objectType: Option<string>)
    requires Search(prefixes, table, search, objectType).Listing?
    ensures forall t | t in Search(prefixes, table, search, objectType).allowed ::
              t !in Search(prefixes, table, search, objectType).restricted
  {
    var res := Search(prefixes, table, search, objectType);
    var inf := InferredType(objectType, search);
    SearchListing(prefixes, table, search, objectType);
    forall t | t in res.allowed ensures t !in res.restricted {
      var r :| r in table && Selected(search, inf, r) && HostnameGate.Allowed(prefixes, r.hostname) && TripleOf(r) == t;
      assert forall r' | r' in table && TripleOf(r') == t :: HostnameGate.Allowed(prefixes, r'.hostname);
    }
  }

  /** An explicit `object_type` wins; without one only the three queue prefixes infer a filter. */
  lemma InferredTypeCases(objectType: Option<string>, search: string)
    ensures objectType.Some? && objectType.value != "" ==> InferredType(objectType, search) == objectType.value
    ensures (objectType.None? || objectType.value == "") ==>
      InferredType(objectType, search) ==
        (if StartsWith(Upper(search), "QL.") then "QLOCAL"
         else if StartsWith(Upper(search), "QA.") then "QALIAS"
         else if StartsWith(Upper(search), "QR.") then "QREMOTE"
         else "")
  {
  }

  /** `QUEUES` selects exactly the four queue object types, in any letter case. */
  lemma QueuesGroup(inf: string, r: Row)
    requires Upper(inf) == "QUEUES"
    ensures PassesTypeFilter(inf, r) <==> Upper(r.objectType) in {"QLOCAL", "QREMOTE", "QMODEL", "QALIAS"}
  {
  }

  /** One listing line per reachable triple. */
  function AllowedLine(t: Triple): string
  {
    "QM:" + t.1 + " Host:" + t.0 + " Type:" + t.2
  }

  /** One listing line per restricted triple, naming the host it cannot reach. */
  function RestrictedLine(t: Triple): string
  {
    "QM:" + t.1 + " [RESTRICTED: " + t.0 + "] Type:" + t.2
  }

  function ListingLines(allowed: seq<Triple>, restricted: seq<Triple>): seq<string>
  {
    MapSeq(allowed, AllowedLine) + MapSeq(restricted, RestrictedLine)
  }

  const NoRecordsText: string := "No records found. CSV file may be empty."

  /** The text the tool returns for each outcome: a failure names the searched text behind its marker. */
  function Render(search: string, res: SearchResult): (text: string)
    ensures res.NotFound? || res.WrongType? ==> StartsWith(text, Cross + search + "'")
    ensures res.RestrictedOnly? ==> StartsWith(text, NoEntry + search + "'")
    ensures res.Listing? && res.allowed != [] ==> StartsWith(text, AllowedLine(res.allowed[0]))
    ensures res.NoRecords? ==> text == NoRecordsText
  {
    match res
    case NoRecords => NoRecordsText
    case NotFound => Flagged(Cross, search, NotFoundDetail)
    case WrongType(inf, types) => Flagged(Cross, search, WrongTypeDetail(inf, types))
    case RestrictedOnly => Flagged(NoEntry, search, RestrictedDetail)
    case Listing(allowed, restricted) => ListingText(allowed, restricted)
  }

  const Cross: string := "❌ '"
  const NoEntry: string := "🚫 '"
  const NotFoundDetail: string := " not found in the manifest."
  const RestrictedDetail: string := " was found, but only on restricted/production systems. I do not have access to these."

  function WrongTypeDetail(inferred: string, types: seq<string>): string
  {
    " exists but is not of type '" + inferred + "'. (Found types: " + Join(types, ", ") + ")"
  }

  /** A marked answer about the quoted search text. */
  function Flagged(mark: string, search: string, rest: string): (text: string)
    ensures StartsWith(text, mark + search + "'")
  {
    StartsWithConcat(mark + search + "'", rest);
    mark + search + "'" + rest
  }

  /** The listing lines, one per line of text. */
  function ListingText(allowed: seq<Triple>, restricted: seq<Triple>): (text: string)
    ensures allowed != [] ==> StartsWith(text, AllowedLine(allowed[0]))
  {
    var lines := ListingLines(allowed, restricted);
    assert allowed != [] ==> lines[0] == AllowedLine(allowed[0]);
    JoinStartsWithFirst(lines, "\n");
    Join(lines, "\n")
  }

  /** `search_qmgr_dump(search_string, object_type)` over the loaded table and the configured prefixes. */
  function SearchQmgrDump(prefixes: seq<string>, table: Table, search: string, objectType: Option<string>): (text: string)
    ensures table == [] ==> text == NoRecordsText
    ensures table != [] && (forall r | r in table :: !MatchesRow(search, r)) ==>
      text == Cross + search + "'" + NotFoundDetail
  {
    SearchNotFound(prefixes, table, search, objectType);
    Render(search, Search(prefixes, table, search, objectType))
  }

  predicate NoNewline(t: Triple) { '\n' !in t.0 && '\n' !in t.1 && '\n' !in t.2 }

  /**
   * When no shown field holds a line break, the lines of a listing are the
   * reachable lines followed by the restricted lines, each group in its
   * own order.
   */
  lemma {:induction false} ListingLineOrder(search: string, allowed: seq<Triple>, restricted: seq<Triple>)
    requires allowed != []
    requires forall t | t in allowed :: NoNewline(t)
    requires forall t | t in restricted :: NoNewline(t)
    ensures Split(Render(search, Listing(allowed, restricted)), "\n") == ListingLines(allowed, restricted)
  {
    var lines := ListingLines(allowed, restricted);
    forall i | 0 <= i < |lines| ensures '\n' !in lines[i] {
      if i < |allowed| {
        LineUnbroken(allowed[i], false);
      } else {
        assert restricted[i - |allowed|] in restricted;
        LineUnbroken(restricted[i - |allowed|], true);
      }
    }
    SplitJoin(lines, '\n');
  }

  /** A listing line of fields without line breaks has no line break. */
  lemma LineUnbroken(t: Triple, isRestricted: bool)
    requires NoNewline(t)
    ensures '\n' !in (if isRestricted then RestrictedLine(t) else AllowedLine(t))
  {
    var line := if isRestricted then RestrictedLine(t) else AllowedLine(t);
    var sep1 := if isRestricted then " [RESTRICTED: " else " Host:";
    var sep2 := if isRestricted then "] Type:" else " Type:";
    assert line == "QM:" + t.1 + sep1 + t.0 + sep2 + t.2;
    assert '\n' !in "QM:" && '\n' !in sep1 && '\n' !in sep2;
  }
}

/** The query-selection logic of the Elasticsearch audit-log manager: how a
    sorting string becomes a sort order and a field, which filter clauses a
    set of optional filters turns into (and in which order), how a property
    name is mapped to an index field, and how saving hides errors. */
module AuditLogQuery {
  import opened Common

  /** An opaque identifier (`Guid`). */
  type Guid = string

  // ---------------------------------------------------------------------------
  // Sorting
  // ---------------------------------------------------------------------------

  datatype SortOrder = Ascending | Descending

  /** The default sort field, `nameof(AuditLog.ExecutionTime)`. */
  const DefaultSortField: string := "ExecutionTime"

  /** `s.Split()[0]`: everything before the first white-space character (the
      empty string when `s` starts with one). */
  function FirstToken(s: string): (t: string)
    ensures |t| <= |s| && t == s[..|t|]
    ensures forall i :: 0 <= i < |t| ==> !IsWhiteSpace(t[i])
    ensures |t| < |s| ==> IsWhiteSpace(s[|t|])
    decreases |s|
  {
    if s == [] || IsWhiteSpace(s[0]) then "" else [s[0]] + FirstToken(s[1..])
  }

  /** The two results of the sorting string's parse in `GetListAsync`. */
  function ParseSortOrder(sorting: Option<string>): (o: SortOrder)
    ensures o == Ascending <==> !IsNullOrWhiteSpace(sorting) && EndsWithIgnoreCase(sorting.value, "asc")
  {
    if !IsNullOrWhiteSpace(sorting) && EndsWithIgnoreCase(sorting.value, "asc") then Ascending
    else Descending
  }

  function ParseSortField(sorting: Option<string>): (f: string)
    ensures IsNullOrWhiteSpace(sorting) ==> f == DefaultSortField
    ensures !IsNullOrWhiteSpace(sorting) ==> f == FirstToken(sorting.value)
  {
    if !IsNullOrWhiteSpace(sorting) then FirstToken(sorting.value) else DefaultSortField
  }

  /** The first token of a word followed by white space and anything else is
      the word. */
  lemma {:induction false} FirstTokenOfWord(word: string, rest: string)
    requires forall i :: 0 <= i < |word| ==> !IsWhiteSpace(word[i])
    requires rest == [] || IsWhiteSpace(rest[0])
    ensures FirstToken(word + rest) == word
    decreases |word|
  {
    if word != [] {
      assert (word + rest)[1..] == word[1..] + rest;
      FirstTokenOfWord(word[1..], rest);
    } else {
      assert word + rest == rest;
    }
  }

  /** `"<field> asc"` sorts ascending on `<field>`, `"<field> desc"`
      descending on `<field>`, and anything blank descending on the default. */
  lemma SortingOfFieldAndDirection(field: string)
    requires field != [] && forall i :: 0 <= i < |field| ==> !IsWhiteSpace(field[i])
    ensures ParseSortField(Some(field + " asc")) == field
    ensures ParseSortOrder(Some(field + " asc")) == Ascending
    ensures ParseSortField(Some(field + " desc")) == field
    ensures ParseSortOrder(Some(field + " desc")) == Descending
    ensures ParseSortField(None) == DefaultSortField && ParseSortOrder(None) == Descending
  {
    var up, down := field + " asc", field + " desc";
    assert !IsWhiteSpace(up[0]) && !IsWhiteSpace(down[0]);
    FirstTokenOfWord(field, " asc");
    FirstTokenOfWord(field, " desc");
    assert up[|up| - 3..] == "asc";
    assert down[|down| - 3..] == "esc";
    assert FoldCase(down[|down| - 3]) != FoldCase('a');
  }

  // ---------------------------------------------------------------------------
  // Field names
  // ---------------------------------------------------------------------------

  /** The sub-field holding the unanalysed text of a string property. */
  const KeywordSuffix: string := ".keyword"

  /** `_fieldMaps`: property names and the index fields they are stored
      under; keys are compared ignoring case. */
  const FieldMaps: seq<(string, string)> := [
    ("Id", "Id" + KeywordSuffix),
    ("ApplicationName", "ApplicationName" + KeywordSuffix),
    ("UserId", "UserId" + KeywordSuffix),
    ("UserName", "UserName" + KeywordSuffix),
    ("TenantId", "TenantId" + KeywordSuffix),
    ("TenantName", "TenantName" + KeywordSuffix),
    ("ImpersonatorUserId", "ImpersonatorUserId" + KeywordSuffix),
    ("ImpersonatorTenantId", "ImpersonatorTenantId" + KeywordSuffix),
    ("ClientName", "ClientName" + KeywordSuffix),
    ("ClientIpAddress", "ClientIpAddress" + KeywordSuffix),
    ("ClientId", "ClientId" + KeywordSuffix),
    ("CorrelationId", "CorrelationId" + KeywordSuffix),
    ("BrowserInfo", "BrowserInfo" + KeywordSuffix),
    ("HttpMethod", "HttpMethod" + KeywordSuffix),
    ("Url", "Url" + KeywordSuffix),
    ("ExecutionDuration", "ExecutionDuration"),
    ("ExecutionTime", "ExecutionTime"),
    ("HttpStatusCode", "HttpStatusCode")
  ]

  /** The first position at or after `from` whose key equals `field`
      ignoring case, or `|maps|` when there is none. */
  function FindKey(maps: seq<(string, string)>, field: string, from: nat): (k: nat)
    requires from <= |maps|
    ensures from <= k <= |maps|
    ensures forall j :: from <= j < k ==> !EqualsIgnoreCase(maps[j].0, field)
    ensures k < |maps| ==> EqualsIgnoreCase(maps[k].0, field)
    decreases |maps| - from
  {
    if from == |maps| then from
    else if EqualsIgnoreCase(maps[from].0, field) then from
    else FindKey(maps, field, from + 1)
  }

  /** Two strings of different lengths, or with different folded first
      characters, are different ignoring case. */
  lemma DifferentIgnoringCase(a: string, b: string)
    requires |a| != |b| || (a != [] && b != [] && FoldCase(a[0]) != FoldCase(b[0]))
    ensures !EqualsIgnoreCase(a, b)
  {
  }

  /** No two keys of the field map are equal ignoring case (the dictionary's
      initialiser would throw otherwise), so at most one key matches. */
  lemma FieldMapKeysDistinct()
    ensures forall i, j :: 0 <= i < j < |FieldMaps| ==> !EqualsIgnoreCase(FieldMaps[i].0, FieldMaps[j].0)
  {
    forall i, j | 0 <= i < j < |FieldMaps|
      ensures !EqualsIgnoreCase(FieldMaps[i].0, FieldMaps[j].0)
    {
      // keys of equal length all start with different letters
      DifferentIgnoringCase(FieldMaps[i].0, FieldMaps[j].0);
    }
  }

  /** The name `GetField` starts from: the mapped index field when `field` is
      a key of the field map ignoring case, `field` itself otherwise. */
  function MapFieldName(field: string): (m: string)
    ensures forall i :: 0 <= i < |FieldMaps| && EqualsIgnoreCase(FieldMaps[i].0, field) ==>
      m == FieldMaps[i].1
    ensures (forall i :: 0 <= i < |FieldMaps| ==> !EqualsIgnoreCase(FieldMaps[i].0, field)) ==>
      m == field
  {
    var k := FindKey(FieldMaps, field, 0);
    FieldMapKeysDistinct();
    if k < |FieldMaps| then FieldMaps[k].1 else field
  }

  /** Lookups ignore case, keyword-mapped names gain `.keyword`, numeric and
      date names map to themselves, and unknown names pass through. */
  lemma MapFieldNameExamples()
    ensures MapFieldName("username") == "UserName.keyword"
    ensures MapFieldName("EXECUTIONTIME") == "ExecutionTime"
    ensures MapFieldName("Exceptions") == "Exceptions"
  {
    MapFieldNameIgnoresCase();
    MapFieldNameKeepsPlain();
    MapFieldNamePassesUnknown();
  }

  lemma MapFieldNameIgnoresCase()
    ensures MapFieldName("username") == "UserName.keyword"
  {
    assert EqualsIgnoreCase(FieldMaps[3].0, "username");
  }

  lemma MapFieldNameKeepsPlain()
    ensures MapFieldName("EXECUTIONTIME") == "ExecutionTime"
  {
    assert EqualsIgnoreCase(FieldMaps[16].0, "EXECUTIONTIME");
  }

  lemma MapFieldNamePassesUnknown()
    ensures MapFieldName("Exceptions") == "Exceptions"
  {
    forall i | 0 <= i < |FieldMaps|
      ensures !EqualsIgnoreCase(FieldMaps[i].0, "Exceptions")
    {
      DifferentIgnoringCase(FieldMaps[i].0, "Exceptions");
    }
  }

  /** `GetField`: the mapped name in camel or Pascal case, as configured;
      `toCamelCase` and `toPascalCase` are the string helpers of the
      framework, whose definitions are not part of this model. */
  function GetField(field: string, fieldCamelCase: bool,
                    toCamelCase: string -> string, toPascalCase: string -> string): (r: string)
    ensures fieldCamelCase ==> r == toCamelCase(MapFieldName(field))
    ensures !fieldCamelCase ==> r == toPascalCase(MapFieldName(field))
  {
    var name := MapFieldName(field);
    if fieldCamelCase then toCamelCase(name) else toPascalCase(name)
  }

  /** The sort of `GetListAsync`: the parsed order, and the parsed field
      through `GetField`. */
  function SortOf(sorting: Option<string>, fieldCamelCase: bool,
                  toCamelCase: string -> string, toPascalCase: string -> string): (r: (SortOrder, string))
    ensures r.0 == ParseSortOrder(sorting)
    ensures r.1 == GetField(ParseSortField(sorting), fieldCamelCase, toCamelCase, toPascalCase)
  {
    (ParseSortOrder(sorting), GetField(ParseSortField(sorting), fieldCamelCase, toCamelCase, toPascalCase))
  }

  // ---------------------------------------------------------------------------
  // Filter clauses
  // ---------------------------------------------------------------------------

  /** The optional filters of `GetCountAsync` and `GetListAsync`, in
      parameter order. */
  datatype AuditLogFilter = AuditLogFilter(
    startTime: Option<Time>,
    endTime: Option<Time>,
    httpMethod: Option<string>,
    url: Option<string>,
    userId: Option<Guid>,
    userName: Option<string>,
    applicationName: Option<string>,
    correlationId: Option<string>,
    clientId: Option<string>,
    clientIpAddress: Option<string>,
    maxExecutionDuration: Option<int>,
    minExecutionDuration: Option<int>,
    hasException: Option<bool>,
    httpStatusCode: Option<int>)

  /** One `must` clause of the query, named by what it tests. */
  datatype QueryClause =
    | ExecutionTimeFrom(time: Time)                 // date range, ExecutionTime >= time
    | ExecutionTimeUntil(time: Time)                // date range, ExecutionTime <= time
    | HttpMethodTerm(text: string)
    | UrlMatch(text: string)                        // full-text match, not a term
    | UserIdTerm(id: Guid)
    | UserNameTerm(text: string)
    | ApplicationNameTerm(text: string)
    | CorrelationIdTerm(text: string)
    | ClientIdTerm(text: string)
    | ClientIpAddressTerm(text: string)
    | ExecutionDurationAtMost(duration: int)        // range, ExecutionDuration <= duration
    | ExecutionDurationAtLeast(duration: int)       // range, ExecutionDuration >= duration
    | ExceptionsExist                               // bool must exists Exceptions
    | ExceptionsMissing                             // bool must-not exists Exceptions
    | HttpStatusCodeTerm(code: int)

  /** Number of filter parameters. */
  const FilterCount: nat := 14

  /** The position of the filter parameter a clause comes from. */
  function Position(c: QueryClause): (p: nat)
    ensures p < FilterCount
  {
    match c
    case ExecutionTimeFrom(_) => 0
    case ExecutionTimeUntil(_) => 1
    case HttpMethodTerm(_) => 2
    case UrlMatch(_) => 3
    case UserIdTerm(_) => 4
    case UserNameTerm(_) => 5
    case ApplicationNameTerm(_) => 6
    case CorrelationIdTerm(_) => 7
    case ClientIdTerm(_) => 8
    case ClientIpAddressTerm(_) => 9
    case ExecutionDurationAtMost(_) => 10
    case ExecutionDurationAtLeast(_) => 11
    case ExceptionsExist => 12
    case ExceptionsMissing => 12
    case HttpStatusCodeTerm(_) => 13
  }

  /** The property name a clause passes to `GetField`; the exception clauses
      name the `Exceptions` field directly. */
  function FieldOf(c: QueryClause): Option<string> {
    match c
    case ExecutionTimeFrom(_) => Some("ExecutionTime")
    case ExecutionTimeUntil(_) => Some("ExecutionTime")
    case HttpMethodTerm(_) => Some("HttpMethod")
    case UrlMatch(_) => Some("Url")
    case UserIdTerm(_) => Some("UserId")
    case UserNameTerm(_) => Some("UserName")
    case ApplicationNameTerm(_) => Some("ApplicationName")
    case CorrelationIdTerm(_) => Some("CorrelationId")
    case ClientIdTerm(_) => Some("ClientId")
    case ClientIpAddressTerm(_) => Some("ClientIpAddress")
    case ExecutionDurationAtMost(_) => Some("ExecutionDuration")
    case ExecutionDurationAtLeast(_) => Some("ExecutionDuration")
    case ExceptionsExist => None
    case ExceptionsMissing => None
    case HttpStatusCodeTerm(_) => Some("HttpStatusCode")
  }

  /** A name that is itself a key of the field map maps to that key's value. */
  lemma MappedKey(k: nat, name: string)
    requires k < |FieldMaps| && FieldMaps[k].0 == name
    ensures MapFieldName(name) == FieldMaps[k].1
  {
    assert EqualsIgnoreCase(FieldMaps[k].0, name);
  }

  /** A key whose value is its `.keyword` sub-field. */
  lemma KeywordKey(k: nat, name: string)
    requires k < |FieldMaps| && FieldMaps[k] == (name, name + KeywordSuffix)
    ensures MapFieldName(name) == name + KeywordSuffix
  {
    MappedKey(k, name);
  }

  /** The clauses that compare a keyword (not analysed) string. */
  predicate KeywordClause(c: QueryClause) {
    c.HttpMethodTerm? || c.UrlMatch? || c.UserIdTerm? || c.UserNameTerm? ||
    c.ApplicationNameTerm? || c.CorrelationIdTerm? || c.ClientIdTerm? || c.ClientIpAddressTerm?
  }

  /** The index field each clause is run on: the string clauses on the
      `.keyword` sub-field of their property (the URL match included), the
      date and number clauses on the property itself, and the exception
      clauses on no mapped field. */
  lemma ClauseIndexField(c: QueryClause)
    ensures FieldOf(c).None? <==> c.ExceptionsExist? || c.ExceptionsMissing?
    ensures KeywordClause(c) ==> MapFieldName(FieldOf(c).value) == FieldOf(c).value + KeywordSuffix
    ensures FieldOf(c).Some? && !KeywordClause(c) ==> MapFieldName(FieldOf(c).value) == FieldOf(c).value
  {
    if KeywordClause(c) {
      KeywordClauseField(c);
    } else if FieldOf(c).Some? {
      PlainClauseField(c);
    }
  }

  lemma KeywordClauseField(c: QueryClause)
    requires KeywordClause(c)
    ensures MapFieldName(FieldOf(c).value) == FieldOf(c).value + KeywordSuffix
  {
    match c
    case HttpMethodTerm(_) => KeywordKey(13, "HttpMethod");
    case UrlMatch(_) => KeywordKey(14, "Url");
    case UserIdTerm(_) => KeywordKey(2, "UserId");
    case UserNameTerm(_) => KeywordKey(3, "UserName");
    case ApplicationNameTerm(_) => KeywordKey(1, "ApplicationName");
    case CorrelationIdTerm(_) => KeywordKey(11, "CorrelationId");
    case ClientIdTerm(_) => KeywordKey(10, "ClientId");
    case ClientIpAddressTerm(_) => KeywordKey(9, "ClientIpAddress");
  }

  lemma PlainClauseField(c: QueryClause)
    requires FieldOf(c).Some? && !KeywordClause(c)
    ensures MapFieldName(FieldOf(c).value) == FieldOf(c).value
  {
    match c
    case ExecutionTimeFrom(_) => MappedKey(16, "ExecutionTime");
    case ExecutionTimeUntil(_) => MappedKey(16, "ExecutionTime");
    case ExecutionDurationAtMost(_) => MappedKey(15, "ExecutionDuration");
    case ExecutionDurationAtLeast(_) => MappedKey(15, "ExecutionDuration");
    case HttpStatusCodeTerm(_) => MappedKey(17, "HttpStatusCode");
  }

  /** The clause the filter parameter at position `p` asks for, if any. */
  function ClauseFor(f: AuditLogFilter, p: nat): Option<QueryClause> {
    if p == 0 then (if f.startTime.Some? then Some(ExecutionTimeFrom(f.startTime.value)) else None)
    else if p == 1 then (if f.endTime.Some? then Some(ExecutionTimeUntil(f.endTime.value)) else None)
    else if p == 2 then (if IsNullOrWhiteSpace(f.httpMethod) then None else Some(HttpMethodTerm(f.httpMethod.value)))
    else if p == 3 then (if IsNullOrWhiteSpace(f.url) then None else Some(UrlMatch(f.url.value)))
    else if p == 4 then (if f.userId.Some? then Some(UserIdTerm(f.userId.value)) else None)
    else if p == 5 then (if IsNullOrWhiteSpace(f.userName) then None else Some(UserNameTerm(f.userName.value)))
    else if p == 6 then (if IsNullOrWhiteSpace(f.applicationName) then None else Some(ApplicationNameTerm(f.applicationName.value)))
    else if p == 7 then (if IsNullOrWhiteSpace(f.correlationId) then None else Some(CorrelationIdTerm(f.correlationId.value)))
    else if p == 8 then (if IsNullOrWhiteSpace(f.clientId) then None else Some(ClientIdTerm(f.clientId.value)))
    else if p == 9 then (if IsNullOrWhiteSpace(f.clientIpAddress) then None else Some(ClientIpAddressTerm(f.clientIpAddress.value)))
    else if p == 10 then
      (if f.maxExecutionDuration.Some? then Some(ExecutionDurationAtMost(f.maxExecutionDuration.value)) else None)
    else if p == 11 then
      (if f.minExecutionDuration.Some? then Some(ExecutionDurationAtLeast(f.minExecutionDuration.value)) else None)
    else if p == 12 then
      (if f.hasException.None? then None
       else if f.hasException.value then Some(ExceptionsExist) else Some(ExceptionsMissing))
    else if p == 13 then (if f.httpStatusCode.Some? then Some(HttpStatusCodeTerm(f.httpStatusCode.value)) else None)
    else None
  }

  /** No filter is supplied. */
  predicate NoFilter(f: AuditLogFilter) {
    forall p :: 0 <= p < FilterCount ==> ClauseFor(f, p).None?
  }

  /** The clauses of the positions below `n`, in position order. */
  ghost function ClausesBelow(f: AuditLogFilter, n: nat): seq<QueryClause>
    decreases n
  {
    if n == 0 then []
    else ClausesBelow(f, n - 1) + (if ClauseFor(f, n - 1).Some? then [ClauseFor(f, n - 1).value] else [])
  }

  /** `ClausesBelow` holds each supplied clause of a position below `n`, once,
      in position order, and nothing else. */
  lemma ClausesBelowExact(f: AuditLogFilter, n: nat)
    ensures forall i :: 0 <= i < |ClausesBelow(f, n)| ==>
      Position(ClausesBelow(f, n)[i]) < n && ClauseFor(f, Position(ClausesBelow(f, n)[i])) == Some(ClausesBelow(f, n)[i])
    ensures forall i, j :: 0 <= i < j < |ClausesBelow(f, n)| ==>
      Position(ClausesBelow(f, n)[i]) < Position(ClausesBelow(f, n)[j])
    ensures forall p :: 0 <= p < n && ClauseFor(f, p).Some? ==> ClauseFor(f, p).value in ClausesBelow(f, n)
  {
    ClausesBelowSound(f, n);
    ClausesBelowOrdered(f, n);
    ClausesBelowComplete(f, n);
  }

  /** Every clause of `qs` comes from its own position, which is below `n`. */
  predicate FromOwnPositions(f: AuditLogFilter, qs: seq<QueryClause>, n: nat) {
    forall i :: 0 <= i < |qs| ==> Position(qs[i]) < n && ClauseFor(f, Position(qs[i])) == Some(qs[i])
  }

  /** Appending nothing, or the clause of position `n`, keeps every clause
      coming from its own position. */
  lemma SoundAppend(f: AuditLogFilter, prev: seq<QueryClause>, extra: seq<QueryClause>, n: nat)
    requires FromOwnPositions(f, prev, n)
    requires extra == [] || (|extra| == 1 && Position(extra[0]) == n && ClauseFor(f, n) == Some(extra[0]))
    ensures FromOwnPositions(f, prev + extra, n + 1)
  {
    var cur := prev + extra;
    forall i | 0 <= i < |cur|
      ensures Position(cur[i]) < n + 1 && ClauseFor(f, Position(cur[i])) == Some(cur[i])
    {
      if i < |prev| {
        assert cur[i] == prev[i];
      } else {
        assert cur[i] == extra[0];
      }
    }
  }

  /** Every clause below `n` comes from its own position, which is below `n`. */
  lemma {:induction false} ClausesBelowSound(f: AuditLogFilter, n: nat)
    ensures FromOwnPositions(f, ClausesBelow(f, n), n)
    decreases n
  {
    if n > 0 {
      ClausesBelowSound(f, n - 1);
      var c := ClauseFor(f, n - 1);
      if c.Some? {
        ClauseForPosition(f, n - 1);
      }
      SoundAppend(f, ClausesBelow(f, n - 1), if c.Some? then [c.value] else [], n - 1);
    }
  }

  /** Clauses in strictly increasing position order. */
  predicate InPositionOrder(qs: seq<QueryClause>) {
    forall i, j :: 0 <= i < j < |qs| ==> Position(qs[i]) < Position(qs[j])
  }

  /** Clauses that all come from positions below `n`. */
  predicate PositionsBelow(qs: seq<QueryClause>, n: nat) {
    forall i :: 0 <= i < |qs| ==> Position(qs[i]) < n
  }

  /** Appending nothing, or one clause of position `n`, to ordered clauses
      below `n` keeps them ordered, and below `n + 1`. */
  lemma OrderedAppend(prev: seq<QueryClause>, extra: seq<QueryClause>, n: nat)
    requires InPositionOrder(prev) && PositionsBelow(prev, n)
    requires extra == [] || (|extra| == 1 && Position(extra[0]) == n)
    ensures InPositionOrder(prev + extra) && PositionsBelow(prev + extra, n + 1)
  {
    var cur := prev + extra;
    forall i, j | 0 <= i < j < |cur|
      ensures Position(cur[i]) < Position(cur[j])
    {
      assert cur[i] == prev[i];
      if j < |prev| {
        assert cur[j] == prev[j];
      } else {
        assert cur[j] == extra[0];
      }
    }
    forall i | 0 <= i < |cur|
      ensures Position(cur[i]) < n + 1
    {
      if i < |prev| {
        assert cur[i] == prev[i];
      } else {
        assert cur[i] == extra[0];
      }
    }
  }

  /** The clauses below `n` are in strictly increasing position order. */
  lemma {:induction false} ClausesBelowOrdered(f: AuditLogFilter, n: nat)
    ensures InPositionOrder(ClausesBelow(f, n)) && PositionsBelow(ClausesBelow(f, n), n)
    decreases n
  {
    if n > 0 {
      ClausesBelowOrdered(f, n - 1);
      var c := ClauseFor(f, n - 1);
      if c.Some? {
        ClauseForPosition(f, n - 1);
      }
      OrderedAppend(ClausesBelow(f, n - 1), if c.Some? then [c.value] else [], n - 1);
    }
  }

  /** Every supplied clause of a position below `n` is in `qs`. */
  predicate HoldsSuppliedBelow(f: AuditLogFilter, qs: seq<QueryClause>, n: nat) {
    forall p :: 0 <= p < n && ClauseFor(f, p).Some? ==> ClauseFor(f, p).value in qs
  }

  /** Appending the clause of position `n`, when supplied, keeps every
      supplied clause in the list. */
  lemma CompleteAppend(f: AuditLogFilter, prev: seq<QueryClause>, extra: seq<QueryClause>, n: nat)
    requires HoldsSuppliedBelow(f, prev, n)
    requires ClauseFor(f, n).Some? ==> extra == [ClauseFor(f, n).value]
    ensures HoldsSuppliedBelow(f, prev + extra, n + 1)
  {
    forall p | 0 <= p < n + 1 && ClauseFor(f, p).Some?
      ensures ClauseFor(f, p).value in prev + extra
    {
      if p < n {
        assert ClauseFor(f, p).value in prev;
      } else {
        assert ClauseFor(f, p).value in extra;
      }
    }
  }

  /** Every supplied clause of a position below `n` is among them. */
  lemma {:induction false} ClausesBelowComplete(f: AuditLogFilter, n: nat)
    ensures HoldsSuppliedBelow(f, ClausesBelow(f, n), n)
    decreases n
  {
    if n > 0 {
      ClausesBelowComplete(f, n - 1);
      var c := ClauseFor(f, n - 1);
      CompleteAppend(f, ClausesBelow(f, n - 1), if c.Some? then [c.value] else [], n - 1);
    }
  }

  /** A clause asked for by position `p` comes from position `p`. */
  lemma ClauseForPosition(f: AuditLogFilter, p: nat)
    requires ClauseFor(f, p).Some?
    ensures Position(ClauseFor(f, p).value) == p
  {
  }

  /** `BuildQueryDescriptor`: one clause per supplied filter, in parameter
      order; string filters count when not blank, the others when present.
      The conditional additions are grouped into the blocks below, each
      extending the list from one position to the next. */
  method BuildQueryDescriptor(f: AuditLogFilter) returns (queries: seq<QueryClause>)
    ensures forall i :: 0 <= i < |queries| ==> ClauseFor(f, Position(queries[i])) == Some(queries[i])
    ensures forall i, j :: 0 <= i < j < |queries| ==> Position(queries[i]) < Position(queries[j])
    ensures forall p :: 0 <= p < FilterCount && ClauseFor(f, p).Some? ==> ClauseFor(f, p).value in queries
    ensures NoFilter(f) ==> queries == []
  {
    queries := [];
    queries := AddExecutionTimeRange(f, queries);
    queries := AddRequestTerms(f, queries);
    queries := AddClientTerms(f, queries);
    queries := AddExecutionDurationRange(f, queries);
    queries := AddOutcomeFilters(f, queries);
    ClausesBelowExact(f, FilterCount);
    SomeFilterBehindEveryClause(f, queries);
  }

  /** The start and end of the execution-time range. */
  method AddExecutionTimeRange(f: AuditLogFilter, queries: seq<QueryClause>) returns (q: seq<QueryClause>)
    requires queries == ClausesBelow(f, 0)
    ensures q == ClausesBelow(f, 2)
  {
    q := queries;
    if f.startTime.Some? {
      q := q + [ExecutionTimeFrom(f.startTime.value)];
    }
    assert q == ClausesBelow(f, 1);
    if f.endTime.Some? {
      q := q + [ExecutionTimeUntil(f.endTime.value)];
    }
  }

  /** HTTP method, URL, user id and user name. */
  method AddRequestTerms(f: AuditLogFilter, queries: seq<QueryClause>) returns (q: seq<QueryClause>)
    requires queries == ClausesBelow(f, 2)
    ensures q == ClausesBelow(f, 6)
  {
    q := queries;
    if !IsNullOrWhiteSpace(f.httpMethod) {
      q := q + [HttpMethodTerm(f.httpMethod.value)];
    }
    assert q == ClausesBelow(f, 3);
    if !IsNullOrWhiteSpace(f.url) {
      q := q + [UrlMatch(f.url.value)];
    }
    assert q == ClausesBelow(f, 4);
    if f.userId.Some? {
      q := q + [UserIdTerm(f.userId.value)];
    }
    assert q == ClausesBelow(f, 5);
    if !IsNullOrWhiteSpace(f.userName) {
      q := q + [UserNameTerm(f.userName.value)];
    }
  }

  /** Application name, correlation id, client id and client IP address. */
  method AddClientTerms(f: AuditLogFilter, queries: seq<QueryClause>) returns (q: seq<QueryClause>)
    requires queries == ClausesBelow(f, 6)
    ensures q == ClausesBelow(f, 10)
  {
    q := queries;
    if !IsNullOrWhiteSpace(f.applicationName) {
      q := q + [ApplicationNameTerm(f.applicationName.value)];
    }
    assert q == ClausesBelow(f, 7);
    if !IsNullOrWhiteSpace(f.correlationId) {
      q := q + [CorrelationIdTerm(f.correlationId.value)];
    }
    assert q == ClausesBelow(f, 8);
    if !IsNullOrWhiteSpace(f.clientId) {
      q := q + [ClientIdTerm(f.clientId.value)];
    }
    assert q == ClausesBelow(f, 9);
    if !IsNullOrWhiteSpace(f.clientIpAddress) {
      q := q + [ClientIpAddressTerm(f.clientIpAddress.value)];
    }
  }

  /** The upper and lower bound of the execution duration. */
  method AddExecutionDurationRange(f: AuditLogFilter, queries: seq<QueryClause>) returns (q: seq<QueryClause>)
    requires queries == ClausesBelow(f, 10)
    ensures q == ClausesBelow(f, 12)
  {
    q := queries;
    if f.maxExecutionDuration.Some? {
      q := q + [ExecutionDurationAtMost(f.maxExecutionDuration.value)];
    }
    assert q == ClausesBelow(f, 11);
    if f.minExecutionDuration.Some? {
      q := q + [ExecutionDurationAtLeast(f.minExecutionDuration.value)];
    }
  }

  /** Whether exceptions were recorded, and the HTTP status code. */
  method AddOutcomeFilters(f: AuditLogFilter, queries: seq<QueryClause>) returns (q: seq<QueryClause>)
    requires queries == ClausesBelow(f, 12)
    ensures q == ClausesBelow(f, FilterCount)
  {
    q := queries;
    if f.hasException.Some? {
      if f.hasException.value {
        q := q + [ExceptionsExist];
      } else {
        q := q + [ExceptionsMissing];
      }
    }
    assert q == ClausesBelow(f, 13);
    if f.httpStatusCode.Some? {
      q := q + [HttpStatusCodeTerm(f.httpStatusCode.value)];
    }
  }

  /** Every clause that comes from a filter of its own witnesses a supplied
      filter. */
  lemma SomeFilterBehindEveryClause(f: AuditLogFilter, queries: seq<QueryClause>)
    requires forall i :: 0 <= i < |queries| ==> ClauseFor(f, Position(queries[i])) == Some(queries[i])
    ensures queries != [] ==> !NoFilter(f)
  {
    if queries != [] {
      assert ClauseFor(f, Position(queries[0])).Some?;
    }
  }

  // ---------------------------------------------------------------------------
  // Saving
  // ---------------------------------------------------------------------------

  /** The exception `auditInfo.ToString()` throws on a null audit-log object. */
  const NullReference := "NullReferenceException"

  /** `SaveAsync`, given what saving the log (`SaveLogAsync`) gave: the
      stored document's id, or the message of the exception it threw. With
      `hideErrors` an exception is swallowed and the id is empty, unless the
      audit-log object is null: the warning text the catch block builds then
      calls `ToString()` on null, and that exception escapes instead. */
  function Save(hideErrors: bool, auditInfoIsNull: bool, saved: Result<string, string>)
    : (r: Result<string, string>)
    ensures r.Failure? <==> saved.Failure? && (!hideErrors || auditInfoIsNull)
    ensures saved.Success? ==> r == saved
    ensures saved.Failure? && !hideErrors ==> r == saved
    ensures saved.Failure? && hideErrors && auditInfoIsNull ==> r == Failure(NullReference)
    ensures saved.Failure? && hideErrors && !auditInfoIsNull ==> r == Success("")
  {
    if !hideErrors then saved
    else match saved
      case Success(id) => Success(id)
      case Failure(_) => if auditInfoIsNull then Failure(NullReference) else Success("")
  }
}

/** The query-string generators of the listing test suite (test/list.go).

    A test entry carries a query template (a fmt.Sprintf format taking a key and a
    value) and a test object of query arguments. The suite turns the object's
    fields into field-query clauses and its `labels` multimap into label-query
    clauses, joins each list with `|`, and registers one list request per clause,
    one per joined query when there is more than one clause, and one combined
    field-and-label request. */
module ListQuery {
  import opened Wrappers

  /** A decoded JSON value as it sits in a test object (Go's interface{}). */
  datatype Value =
    | Nil
    | Text(s: string)
    | Number(repr: string)
    | Boolean(b: bool)
    | Object(entries: Entries)
    | Array(items: seq<Value>)

  /** A Go map[string]interface{} (common.Object), listed in one iteration order. */
  type Entries = seq<(string, Value)>

  /** fmt.Sprintf(template, key, value): a library formatter, kept abstract. */
  type Filler = (string, string, Value) -> string

  /** json.Marshal: the serialised text, or the error the library reports. */
  type Marshaller = Value -> Result<string>

  const ClauseSeparator: string := "|"
  const FieldQueryParam: string := "fieldQuery="
  const LabelQueryParam: string := "labelQuery="
  const QueryParamSeparator: string := "&"
  const LabelsKey: string := "labels"
  const TemplatesMissing: string := "query templates missing"
  /** Panic messages of the unchecked type assertions on the labels entry. */
  const LabelsNotAMap: string := "interface conversion: labels is not map[string]interface {}"
  const LabelValuesNotASlice: string := "interface conversion: label values are not []interface {}"

  /** What one expander returns: the `|`-joined query and the clause list, or the
      panic that stopped it. */
  datatype Expansion = Expanded(multi: string, clauses: seq<string>) | Panicked(reason: string)

  /** One table entry, reduced to what the query generation reads. */
  datatype ListOpEntry = ListOpEntry(queryTemplate: string, queryArgs: Entries)

  // ---------------------------------------------------------------------------
  // Maps as sequences of pairs

  /** `m[k]` on a Go map: the value stored under k, if any. */
  function Lookup(m: Entries, k: string): Option<Value>
  {
    if m == [] then None
    else if m[0].0 == k then Some(m[0].1)
    else Lookup(m[1..], k)
  }

  /** The map after `delete(m, k)`: every entry under k removed, the others kept in order. */
  function Delete(m: Entries, k: string): Entries
  {
    if m == [] then []
    else if m[0].0 == k then Delete(m[1..], k)
    else [m[0]] + Delete(m[1..], k)
  }

  lemma {:induction false} DeleteRemovesOnlyKey(m: Entries, k: string, other: string)
    ensures Lookup(Delete(m, k), k) == None
    ensures other != k ==> Lookup(Delete(m, k), other) == Lookup(m, other)
    ensures forall p :: p in Delete(m, k) ==> p.0 != k
  {
    if m != [] {
      DeleteRemovesOnlyKey(m[1..], k, other);
    }
  }

  // ---------------------------------------------------------------------------
  // strings.Join and its inverse

  /** strings.Join(parts, sep). */
  function Join(parts: seq<string>, sep: string): string
  {
    if |parts| == 0 then ""
    else if |parts| == 1 then parts[0]
    else parts[0] + sep + Join(parts[1..], sep)
  }

  /** strings.Split(s, string(sep)): the pieces between occurrences of sep. */
  function Split(s: string, sep: char): (pieces: seq<string>)
    ensures |pieces| >= 1
    ensures s == [] ==> pieces == [""]
  {
    if s == [] then [""]
    else
      var rest := Split(s[1..], sep);
      if s[0] == sep then [""] + rest
      else [[s[0]] + rest[0]] + rest[1..]
  }

  /** A separator-free prefix glues onto the first piece of what follows it. */
  lemma {:induction false} SplitPrefix(a: string, t: string, sep: char)
    requires sep !in a
    ensures Split(a + t, sep) == [a + Split(t, sep)[0]] + Split(t, sep)[1..]
  {
    if a == [] {
      assert a + t == t;
      assert a + Split(t, sep)[0] == Split(t, sep)[0];
      assert Split(t, sep) == [Split(t, sep)[0]] + Split(t, sep)[1..];
    } else {
      SplitPrefix(a[1..], t, sep);
      assert (a + t)[1..] == a[1..] + t;
      var rest := Split(a[1..] + t, sep);
      assert rest[0] == a[1..] + Split(t, sep)[0] && rest[1..] == Split(t, sep)[1..];
      assert [a[0]] + rest[0] == a + Split(t, sep)[0];
    }
  }

  /** Splitting the joined query on `|` gives back the clauses, provided none of
      them contains `|` (a list is needed: Split never yields an empty list). */
  lemma {:induction false} SplitJoin(parts: seq<string>, sep: char)
    requires |parts| >= 1
    requires forall i :: 0 <= i < |parts| ==> sep !in parts[i]
    ensures Split(Join(parts, [sep]), sep) == parts
  {
    if |parts| == 1 {
      SplitPrefix(parts[0], "", sep);
      assert parts[0] + "" == parts[0];
    } else {
      var tail := Join(parts[1..], [sep]);
      SplitJoin(parts[1..], sep);
      assert Join(parts, [sep]) == parts[0] + ([sep] + tail);
      SplitPrefix(parts[0], [sep] + tail, sep);
      assert ([sep] + tail)[1..] == tail;
      assert Split([sep] + tail, sep) == [""] + parts[1..];
      assert parts[0] + "" == parts[0];
      assert parts == [parts[0]] + parts[1..];
    }
  }

  // ---------------------------------------------------------------------------
  // Field queries (expandFieldQuery)

  /** The value substituted into a field clause: maps and slices become their JSON
      text, every other value is substituted as it is; a Marshal error panics. */
  function Substitute(v: Value, marshal: Marshaller): (r: Result<Value>)
    ensures !v.Object? && !v.Array? ==> r == Ok(v)
    ensures (v.Object? || v.Array?) ==> (r.Ok? <==> marshal(v).Ok?)
    ensures (v.Object? || v.Array?) && r.Ok? ==> r.value == Text(marshal(v).value)
    ensures r.Err? ==> r.error == marshal(v).error
  {
    if v.Object? || v.Array? then
      match marshal(v)
      case Ok(t) => Ok(Text(t))
      case Err(e) => Err(e)
    else Ok(v)
  }

  /** The clauses expandFieldQuery appends after visiting `args` in order. */
  function FieldClauses(args: Entries, template: string, fill: Filler, marshal: Marshaller): Result<seq<string>>
  {
    if args == [] then Ok([])
    else
      match FieldClauses(args[..|args| - 1], template, fill, marshal)
      case Err(e) => Err(e)
      case Ok(clauses) =>
        var (k, v) := args[|args| - 1];
        if v.Nil? then Ok(clauses)
        else
          match Substitute(v, marshal)
          case Err(e) => Err(e)
          case Ok(w) => Ok(clauses + [fill(template, k, w)])
  }

  /** The entries whose value is not nil, in order. */
  function NonNil(args: Entries): Entries
  {
    if args == [] then []
    else NonNil(args[..|args| - 1]) + (if args[|args| - 1].1.Nil? then [] else [args[|args| - 1]])
  }

  /** Every non-nil map or slice value serialises without error. */
  predicate MarshalsCleanly(args: Entries, marshal: Marshaller)
  {
    forall i :: 0 <= i < |args| && !args[i].1.Nil? ==> Substitute(args[i].1, marshal).Ok?
  }

  /** Once a prefix has panicked, the whole expansion has. */
  lemma {:induction false} FieldPanicPersists(args: Entries, n: nat, template: string, fill: Filler, marshal: Marshaller)
    requires n <= |args|
    requires FieldClauses(args[..n], template, fill, marshal).Err?
    ensures FieldClauses(args, template, fill, marshal) == FieldClauses(args[..n], template, fill, marshal)
  {
    if n < |args| {
      assert args[..|args|][..|args| - 1] == args[..|args| - 1];
      assert args[..|args| - 1][..n] == args[..n];
      FieldPanicPersists(args[..|args| - 1], n, template, fill, marshal);
      assert args[..|args|] == args;
    } else {
      assert args[..n] == args;
    }
  }

  /** Field expansion succeeds exactly when every non-nil map or slice value
      serialises, and then yields one clause per non-nil entry: the template
      filled with the entry's key first and its substituted value second. */
  lemma {:induction false} FieldClausesFillNonNilEntries(args: Entries, template: string, fill: Filler, marshal: Marshaller)
    ensures FieldClauses(args, template, fill, marshal).Ok? <==> MarshalsCleanly(args, marshal)
    ensures FieldClauses(args, template, fill, marshal).Ok? ==>
      var clauses, entries := FieldClauses(args, template, fill, marshal).value, NonNil(args);
      |clauses| == |entries| &&
      forall j :: 0 <= j < |clauses| ==>
        Substitute(entries[j].1, marshal).Ok? &&
        clauses[j] == fill(template, entries[j].0, Substitute(entries[j].1, marshal).value)
  {
    if args != [] {
      var init := args[..|args| - 1];
      FieldClausesFillNonNilEntries(init, template, fill, marshal);
      assert forall i :: 0 <= i < |init| ==> init[i] == args[i];
      if MarshalsCleanly(args, marshal) {
        assert MarshalsCleanly(init, marshal);
      }
    }
  }

  /** Arguments whose values are all nil produce no clause. */
  lemma {:induction false} NilEntriesAreSkipped(args: Entries, template: string, fill: Filler, marshal: Marshaller)
    requires forall i :: 0 <= i < |args| ==> args[i].1.Nil?
    ensures FieldClauses(args, template, fill, marshal) == Ok([])
  {
    if args != [] {
      NilEntriesAreSkipped(args[..|args| - 1], template, fill, marshal);
    }
  }

  function ToExpansion(r: Result<seq<string>>): Expansion
  {
    match r
    case Ok(clauses) => Expanded(Join(clauses, ClauseSeparator), clauses)
    case Err(e) => Panicked(e)
  }

  /** Empty arguments expand to no clause and the empty multi-clause query. */
  lemma EmptyArgumentsExpandToNothing(template: string, fill: Filler, marshal: Marshaller)
    ensures ToExpansion(FieldClauses([], template, fill, marshal)) == Expanded("", [])
    ensures ToExpansion(LabelClauses([], template, fill)) == Expanded("", [])
  {
  }

  /** expandFieldQuery: one clause per non-nil field, maps and slices serialised
      first; returns the `|`-joined query and the clause list. */
  method ExpandFieldQuery(args: Entries, template: string, fill: Filler, marshal: Marshaller) returns (r: Expansion)
    ensures r == ToExpansion(FieldClauses(args, template, fill, marshal))
  {
    var clauses: seq<string> := [];
    var i := 0;
    while i < |args|
      invariant 0 <= i <= |args|
      invariant FieldClauses(args[..i], template, fill, marshal) == Ok(clauses)
    {
      assert args[..i + 1][..i] == args[..i];
      var (k, v) := args[i];
      if v.Nil? {
        i := i + 1;
        continue;
      }
      if v.Object? {
        match marshal(v)
        case Err(e) =>
          FieldPanicPersists(args, i + 1, template, fill, marshal);
          return Panicked(e);
        case Ok(text) =>
          v := Text(text);
      }
      if v.Array? {
        match marshal(v)
        case Err(e) =>
          FieldPanicPersists(args, i + 1, template, fill, marshal);
          return Panicked(e);
        case Ok(text) =>
          v := Text(text);
      }
      clauses := clauses + [fill(template, k, v)];
      i := i + 1;
    }
    assert args[..i] == args;
    r := Expanded(Join(clauses, ClauseSeparator), clauses);
  }

  // ---------------------------------------------------------------------------
  // Label queries (expandLabelQuery)

  /** The clauses of one label key: one per value, in the order of the value list. */
  function KeyClauses(key: string, values: seq<Value>, template: string, fill: Filler): (clauses: seq<string>)
  {
    seq(|values|, j requires 0 <= j < |values| => fill(template, key, values[j]))
  }

  /** The clauses expandLabelQuery appends after visiting `labels` in order; a
      value that is not a list panics. */
  function LabelClauses(labels: Entries, template: string, fill: Filler): Result<seq<string>>
  {
    if labels == [] then Ok([])
    else
      match LabelClauses(labels[..|labels| - 1], template, fill)
      case Err(e) => Err(e)
      case Ok(clauses) =>
        var (key, values) := labels[|labels| - 1];
        if values.Array? then Ok(clauses + KeyClauses(key, values.items, template, fill))
        else Err(LabelValuesNotASlice)
  }

  /** The (key, value) pairs of a label multimap, key by key. */
  function LabelPairs(labels: Entries): seq<(string, Value)>
  {
    if labels == [] then []
    else
      var (key, values) := labels[0];
      (if values.Array? then seq(|values.items|, j requires 0 <= j < |values.items| => (key, values.items[j])) else [])
      + LabelPairs(labels[1..])
  }

  /** Sum of the lengths of the label value lists. */
  function ValueCount(labels: Entries): nat
  {
    if labels == [] then 0
    else (if labels[0].1.Array? then |labels[0].1.items| else 0) + ValueCount(labels[1..])
  }

  lemma {:induction false} LabelPairsCount(labels: Entries)
    ensures |LabelPairs(labels)| == ValueCount(labels)
  {
    if labels != [] {
      LabelPairsCount(labels[1..]);
    }
  }

  lemma {:induction false} LabelPairsAppend(labels: Entries, last: (string, Value))
    ensures LabelPairs(labels + [last]) == LabelPairs(labels) + LabelPairs([last])
  {
    if labels != [] {
      assert (labels + [last])[0] == labels[0];
      assert (labels + [last])[1..] == labels[1..] + [last];
      LabelPairsAppend(labels[1..], last);
    } else {
      assert labels + [last] == [last];
    }
  }

  /** Label expansion succeeds exactly when every label value is a list, and then
      emits exactly one clause per (key, value) pair, the template filled with the
      key first and the value second. */
  lemma {:induction false} LabelClausesFillPairs(labels: Entries, template: string, fill: Filler)
    ensures LabelClauses(labels, template, fill).Ok? <==> forall i :: 0 <= i < |labels| ==> labels[i].1.Array?
    ensures LabelClauses(labels, template, fill).Ok? ==>
      var clauses, pairs := LabelClauses(labels, template, fill).value, LabelPairs(labels);
      |clauses| == |pairs| &&
      forall j :: 0 <= j < |clauses| ==> clauses[j] == fill(template, pairs[j].0, pairs[j].1)
  {
    if labels != [] {
      var init, last := labels[..|labels| - 1], labels[|labels| - 1];
      LabelClausesFillPairs(init, template, fill);
      assert forall i :: 0 <= i < |init| ==> init[i] == labels[i];
      assert labels == init + [last];
      LabelPairsAppend(init, last);
      assert LabelPairs([last]) == (if last.1.Array? then seq(|last.1.items|, j requires 0 <= j < |last.1.items| => (last.0, last.1.items[j])) else []) + LabelPairs([]);
    }
  }

  /** The number of label clauses is the sum of the value-list lengths. */
  lemma LabelClauseCount(labels: Entries, template: string, fill: Filler)
    requires LabelClauses(labels, template, fill).Ok?
    ensures |LabelClauses(labels, template, fill).value| == ValueCount(labels)
  {
    LabelClausesFillPairs(labels, template, fill);
    LabelPairsCount(labels);
  }

  /** Once a prefix has panicked, the whole expansion has. */
  lemma {:induction false} LabelPanicPersists(labels: Entries, n: nat, template: string, fill: Filler)
    requires n <= |labels|
    requires LabelClauses(labels[..n], template, fill).Err?
    ensures LabelClauses(labels, template, fill) == LabelClauses(labels[..n], template, fill)
  {
    if n < |labels| {
      assert labels[..|labels|][..|labels| - 1] == labels[..|labels| - 1];
      assert labels[..|labels| - 1][..n] == labels[..n];
      LabelPanicPersists(labels[..|labels| - 1], n, template, fill);
      assert labels[..|labels|] == labels;
    } else {
      assert labels[..n] == labels;
    }
  }

  /** expandLabelQuery: one clause per value of every label key; returns the
      `|`-joined query and the clause list. */
  method ExpandLabelQuery(labels: Entries, template: string, fill: Filler) returns (r: Expansion)
    ensures r == ToExpansion(LabelClauses(labels, template, fill))
  {
    var clauses: seq<string> := [];
    var i := 0;
    while i < |labels|
      invariant 0 <= i <= |labels|
      invariant LabelClauses(labels[..i], template, fill) == Ok(clauses)
    {
      assert labels[..i + 1][..i] == labels[..i];
      var (key, values) := labels[i];
      if !values.Array? {
        LabelPanicPersists(labels, i + 1, template, fill);
        return Panicked(LabelValuesNotASlice);
      }
      var items := values.items;
      ghost var before := clauses;
      var j := 0;
      while j < |items|
        invariant 0 <= j <= |items|
        invariant clauses == before + KeyClauses(key, items[..j], template, fill)
      {
        assert KeyClauses(key, items[..j + 1], template, fill) == KeyClauses(key, items[..j], template, fill) + [fill(template, key, items[j])];
        clauses := clauses + [fill(template, key, items[j])];
        j := j + 1;
      }
      assert items[..j] == items;
      i := i + 1;
    }
    assert labels[..i] == labels;
    r := Expanded(Join(clauses, ClauseSeparator), clauses);
  }

  // ---------------------------------------------------------------------------
  // The entry loop of DescribeListTestsFor

  /** The query strings `param + clause`, one per clause. */
  function Prefixed(param: string, clauses: seq<string>): (queries: seq<string>)
  {
    seq(|clauses|, i requires 0 <= i < |clauses| => param + clauses[i])
  }

  /** The requests registered for one expansion: one per clause, plus the joined
      query when there is more than one clause. */
  function QueriesFor(param: string, clauses: seq<string>): seq<string>
  {
    Prefixed(param, clauses) + (if |clauses| > 1 then [param + Join(clauses, ClauseSeparator)] else [])
  }

  /** The list requests one entry registers, or the panic that stops the suite. */
  function EntryQueries(entry: ListOpEntry, supportsLabels: bool, fill: Filler, marshal: Marshaller): Result<seq<string>>
  {
    if |entry.queryTemplate| == 0 then Err(TemplatesMissing)
    else
      var fields := Delete(entry.queryArgs, LabelsKey);
      match FieldClauses(fields, entry.queryTemplate, fill, marshal)
      case Err(e) => Err(e)
      case Ok(fieldClauses) =>
        var fquery := FieldQueryParam + Join(fieldClauses, ClauseSeparator);
        var fieldRuns := QueriesFor(FieldQueryParam, fieldClauses);
        var labels := Lookup(entry.queryArgs, LabelsKey);
        if !LabelsExpanded(entry, supportsLabels) then Ok(fieldRuns)
        else if !labels.value.Object? then Err(LabelsNotAMap)
        else
          match LabelClauses(labels.value.entries, entry.queryTemplate, fill)
          case Err(e) => Err(e)
          case Ok(labelClauses) =>
            var lquery := LabelQueryParam + Join(labelClauses, ClauseSeparator);
            Ok(fieldRuns + QueriesFor(LabelQueryParam, labelClauses) + [fquery + QueryParamSeparator + lquery])
  }

  /** The requests of all entries, entry by entry, or the first panic. */
  function ListPlan(entries: seq<ListOpEntry>, supportsLabels: bool, fill: Filler, marshal: Marshaller): Result<seq<seq<string>>>
  {
    if entries == [] then Ok([])
    else
      match ListPlan(entries[..|entries| - 1], supportsLabels, fill, marshal)
      case Err(e) => Err(e)
      case Ok(plan) =>
        match EntryQueries(entries[|entries| - 1], supportsLabels, fill, marshal)
        case Err(e) => Err(e)
        case Ok(queries) => Ok(plan + [queries])
  }

  /** `param + clause` for every clause, as the loops over queryValues build them. */
  method PrefixEach(param: string, clauses: seq<string>) returns (queries: seq<string>)
    ensures |queries| == |clauses|
    ensures forall i :: 0 <= i < |clauses| ==> queries[i] == param + clauses[i]
  {
    queries := [];
    for i := 0 to |clauses|
      invariant |queries| == i
      invariant forall j :: 0 <= j < i ==> queries[j] == param + clauses[j]
    {
      queries := queries + [param + clauses[i]];
    }
  }

  /** The body of the entry loop for one entry: the template guard, field
      expansion over a copy without `labels`, and, when the resource supports
      labels and the entry's `labels` argument is present and not nil, label
      expansion and the combined request. */
  method DescribeEntry(entry: ListOpEntry, supportsLabels: bool, fill: Filler, marshal: Marshaller) returns (r: Result<seq<string>>)
    ensures r == EntryQueries(entry, supportsLabels, fill, marshal)
  {
    if |entry.queryTemplate| == 0 {
      return Err(TemplatesMissing);
    }
    var fields := entry.queryArgs;
    fields := Delete(fields, LabelsKey);
    var fexp := ExpandFieldQuery(fields, entry.queryTemplate, fill, marshal);
    if fexp.Panicked? {
      return Err(fexp.reason);
    }
    ghost var fieldClauses := FieldClauses(fields, entry.queryTemplate, fill, marshal).value;
    assert fexp.clauses == fieldClauses && fexp.multi == Join(fieldClauses, ClauseSeparator);
    var fquery := FieldQueryParam + fexp.multi;
    var runs := PrefixEach(FieldQueryParam, fexp.clauses);
    assert runs == Prefixed(FieldQueryParam, fexp.clauses);
    if |fexp.clauses| > 1 {
      runs := runs + [fquery];
    }
    assert runs == QueriesFor(FieldQueryParam, fieldClauses);
    var labels := Lookup(entry.queryArgs, LabelsKey);
    if supportsLabels && labels.Some? && !labels.value.Nil? {
      if !labels.value.Object? {
        return Err(LabelsNotAMap);
      }
      var lexp := ExpandLabelQuery(labels.value.entries, entry.queryTemplate, fill);
      if lexp.Panicked? {
        return Err(lexp.reason);
      }
      ghost var labelClauses := LabelClauses(labels.value.entries, entry.queryTemplate, fill).value;
      assert lexp.clauses == labelClauses && lexp.multi == Join(labelClauses, ClauseSeparator);
      var lquery := LabelQueryParam + lexp.multi;
      var lruns := PrefixEach(LabelQueryParam, lexp.clauses);
      assert lruns == Prefixed(LabelQueryParam, lexp.clauses);
      if |lexp.clauses| > 1 {
        lruns := lruns + [lquery];
      }
      assert lruns == QueriesFor(LabelQueryParam, labelClauses);
      runs := runs + lruns + [fquery + QueryParamSeparator + lquery];
    }
    r := Ok(runs);
  }

  /** The loop over the table entries: stops at the first entry that panics. */
  method DescribeListTests(entries: seq<ListOpEntry>, supportsLabels: bool, fill: Filler, marshal: Marshaller)
    returns (r: Result<seq<seq<string>>>)
    ensures r == ListPlan(entries, supportsLabels, fill, marshal)
  {
    var plan: seq<seq<string>> := [];
    var i := 0;
    while i < |entries|
      invariant 0 <= i <= |entries|
      invariant ListPlan(entries[..i], supportsLabels, fill, marshal) == Ok(plan)
    {
      assert entries[..i + 1][..i] == entries[..i];
      var queries := DescribeEntry(entries[i], supportsLabels, fill, marshal);
      if queries.Err? {
        ListPanicPersists(entries, i + 1, supportsLabels, fill, marshal);
        return Err(queries.error);
      }
      plan := plan + [queries.value];
      i := i + 1;
    }
    assert entries[..i] == entries;
    r := Ok(plan);
  }

  /** A successful table registers, entry by entry and in table order, exactly
      the requests of that entry, and every entry succeeded. */
  lemma {:induction false} ListPlanEntries(entries: seq<ListOpEntry>, supportsLabels: bool, fill: Filler, marshal: Marshaller)
    requires ListPlan(entries, supportsLabels, fill, marshal).Ok?
    ensures var plan := ListPlan(entries, supportsLabels, fill, marshal).value;
      |plan| == |entries| &&
      forall i :: 0 <= i < |entries| ==>
        EntryQueries(entries[i], supportsLabels, fill, marshal).Ok? &&
        plan[i] == EntryQueries(entries[i], supportsLabels, fill, marshal).value
  {
    if entries != [] {
      var init := entries[..|entries| - 1];
      ListPlanEntries(init, supportsLabels, fill, marshal);
      forall i | 0 <= i < |init|
        ensures entries[i] == init[i]
      {
      }
    }
  }

  lemma {:induction false} ListPanicPersists(entries: seq<ListOpEntry>, n: nat, supportsLabels: bool, fill: Filler, marshal: Marshaller)
    requires n <= |entries|
    requires ListPlan(entries[..n], supportsLabels, fill, marshal).Err?
    ensures ListPlan(entries, supportsLabels, fill, marshal) == ListPlan(entries[..n], supportsLabels, fill, marshal)
  {
    if n < |entries| {
      assert entries[..|entries|][..|entries| - 1] == entries[..|entries| - 1];
      assert entries[..|entries| - 1][..n] == entries[..n];
      ListPanicPersists(entries[..|entries| - 1], n, supportsLabels, fill, marshal);
      assert entries[..|entries|] == entries;
    } else {
      assert entries[..n] == entries;
    }
  }

  /** An entry with an empty template anywhere in the table makes the suite panic,
      whatever the other entries hold. */
  lemma {:induction false} EmptyTemplatePanics(entries: seq<ListOpEntry>, k: nat, supportsLabels: bool, fill: Filler, marshal: Marshaller)
    requires k < |entries| && |entries[k].queryTemplate| == 0
    ensures ListPlan(entries, supportsLabels, fill, marshal).Err?
  {
    if k < |entries| - 1 {
      EmptyTemplatePanics(entries[..|entries| - 1], k, supportsLabels, fill, marshal);
    }
  }

  /** Field expansion never sees the labels entry and sees every other entry
      unchanged. (That label expansion reads the entry's own arguments is
      stated by EntryRequestShape.) */
  lemma FieldsExcludeLabels(entry: ListOpEntry)
    ensures forall p :: p in Delete(entry.queryArgs, LabelsKey) ==> p.0 != LabelsKey
    ensures forall k :: k != LabelsKey ==> Lookup(Delete(entry.queryArgs, LabelsKey), k) == Lookup(entry.queryArgs, k)
  {
    forall k | k != LabelsKey
      ensures Lookup(Delete(entry.queryArgs, LabelsKey), k) == Lookup(entry.queryArgs, k)
    {
      DeleteRemovesOnlyKey(entry.queryArgs, LabelsKey, k);
    }
    DeleteRemovesOnlyKey(entry.queryArgs, LabelsKey, LabelsKey);
  }

  /** The requests of one expansion: exactly one `param + clause` per clause, in
      clause order, followed by the joined query if and only if there is more
      than one clause (with a single clause the joined query is that clause). */
  lemma QueriesForShape(param: string, clauses: seq<string>)
    ensures var queries := QueriesFor(param, clauses);
      |queries| == |clauses| + (if |clauses| > 1 then 1 else 0) &&
      (forall i :: 0 <= i < |clauses| ==> queries[i] == param + clauses[i]) &&
      (|clauses| > 1 ==> queries[|clauses|] == param + Join(clauses, ClauseSeparator)) &&
      (|clauses| == 1 ==> param + Join(clauses, ClauseSeparator) == queries[0])
  {
  }

  /** Whether an entry's labels are expanded: the resource supports labels and
      the entry's `labels` argument is present and not nil. */
  predicate LabelsExpanded(entry: ListOpEntry, supportsLabels: bool)
  {
    var labels := Lookup(entry.queryArgs, LabelsKey);
    supportsLabels && labels.Some? && !labels.value.Nil?
  }

  /** A successful entry has a non-empty template and registers, in order: one
      `fieldQuery=` request per field clause, the joined field query exactly when
      there is more than one field clause, and, when its labels are expanded,
      one `labelQuery=` request per label clause, the joined label query exactly
      when there is more than one label clause, and last the combined
      `fieldQuery=…&labelQuery=…` request. Nothing else is registered. */
  lemma EntryRequestShape(entry: ListOpEntry, supportsLabels: bool, fill: Filler, marshal: Marshaller)
    requires EntryQueries(entry, supportsLabels, fill, marshal).Ok?
    ensures |entry.queryTemplate| > 0
    ensures var fc := FieldClauses(Delete(entry.queryArgs, LabelsKey), entry.queryTemplate, fill, marshal);
      var queries := EntryQueries(entry, supportsLabels, fill, marshal).value;
      var nf := |fc.value| + (if |fc.value| > 1 then 1 else 0);
      fc.Ok? &&
      (!LabelsExpanded(entry, supportsLabels) ==> |queries| == nf) &&
      (forall i :: 0 <= i < |fc.value| ==> queries[i] == FieldQueryParam + fc.value[i]) &&
      (|fc.value| > 1 ==> queries[|fc.value|] == FieldQueryParam + Join(fc.value, ClauseSeparator))
    ensures LabelsExpanded(entry, supportsLabels) ==>
      var labels := Lookup(entry.queryArgs, LabelsKey).value;
      var fc := FieldClauses(Delete(entry.queryArgs, LabelsKey), entry.queryTemplate, fill, marshal).value;
      var queries := EntryQueries(entry, supportsLabels, fill, marshal).value;
      var nf := |fc| + (if |fc| > 1 then 1 else 0);
      labels.Object? &&
      var lc := LabelClauses(labels.entries, entry.queryTemplate, fill);
      var nl := |lc.value| + (if |lc.value| > 1 then 1 else 0);
      lc.Ok? &&
      |queries| == nf + nl + 1 &&
      (forall i :: 0 <= i < |lc.value| ==> queries[nf + i] == LabelQueryParam + lc.value[i]) &&
      (|lc.value| > 1 ==> queries[nf + |lc.value|] == LabelQueryParam + Join(lc.value, ClauseSeparator)) &&
      queries[nf + nl] ==
        FieldQueryParam + Join(fc, ClauseSeparator) + QueryParamSeparator + LabelQueryParam + Join(lc.value, ClauseSeparator)
  {
    var fc := FieldClauses(Delete(entry.queryArgs, LabelsKey), entry.queryTemplate, fill, marshal).value;
    QueriesForShape(FieldQueryParam, fc);
    if LabelsExpanded(entry, supportsLabels) {
      var labels := Lookup(entry.queryArgs, LabelsKey).value;
      QueriesForShape(LabelQueryParam, LabelClauses(labels.entries, entry.queryTemplate, fill).value);
    }
  }
}

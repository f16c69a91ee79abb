/** The criteria-to-SQL predicate builder of the document store
    (Xtricate.DocSet/SqlBuilder.cs): resolves a criterion against the index
    maps of a document type and renders it, or a tag filter, as an
    ` AND ...` fragment of a WHERE clause. */
module SqlBuilding {
  import opened Nullable

  /** The comparison a criterion asks for. `Eqm` is only produced by the
      multi-value rewrite of `BuildCriteriaSelect`. */
  datatype CriteriaOperator = Eq | Eqm | Gt | Ge | Lt | Le | Contains

  /** One indexed field of a document type: its name and either a single
      value or a list of values. */
  datatype IndexMap = IndexMap(name: string, value: Option<string>, values: Option<seq<string>>)
  {
    /** A field is multi-valued when it has a value list and no single value. */
    predicate IsMultiValued()
      ensures value.Some? ==> !IsMultiValued()
      ensures values.None? ==> !IsMultiValued()
    {
      values.Some? && value.None?
    }
  }

  /** A caller-owned filter request; `BuildCriteriaSelect` may rewrite its operator in place. */
  class Criteria {
    var name: Option<string>
    var op: CriteriaOperator
    var value: Option<string>

    constructor (name: Option<string>, op: CriteriaOperator, value: Option<string>)
      ensures this.name == name && this.op == op && this.value == value
    {
      this.name, this.op, this.value := name, op, value;
    }
  }

  /** The storage options the builder is configured with (none of their fields is read here). */
  class StorageOptions {
    constructor () {}
  }

  /** `ArgumentNullException` naming the offending parameter. */
  datatype ArgumentError = ArgumentNull(paramName: string)

  // ---------------------------------------------------------------------
  // Case folding

  /** Lower-cases one ASCII letter and leaves every other character alone. */
  function LowerChar(c: char): char
  {
    if 'A' <= c <= 'Z' then (c as int - 'A' as int + 'a' as int) as char else c
  }

  /** `string.ToLower()`, restricted to ASCII letters. */
  function Lower(s: string): (r: string)
    ensures |r| == |s|
  {
    if s == [] then [] else [LowerChar(s[0])] + Lower(s[1..])
  }

  /** Each character of the lower-case form is its own character lower-cased. */
  lemma {:induction false} LowerAt(s: string, i: nat)
    requires i < |s|
    ensures Lower(s)[i] == LowerChar(s[i])
  {
    if i > 0 {
      LowerAt(s[1..], i - 1);
    }
  }

  /** Lower-casing twice is lower-casing once. */
  lemma LowerIdempotent(s: string)
    ensures Lower(Lower(s)) == Lower(s)
  {
    forall i | 0 <= i < |s| ensures Lower(Lower(s))[i] == Lower(s)[i] {
      LowerAt(s, i);
      LowerAt(Lower(s), i);
    }
  }

  /** A name without upper-case letters is its own lower-case form. */
  lemma LowerOfLowerCase(s: string)
    requires forall i :: 0 <= i < |s| ==> !('A' <= s[i] <= 'Z')
    ensures Lower(s) == s
  {
    forall i | 0 <= i < |s| ensures Lower(s)[i] == s[i] {
      LowerAt(s, i);
    }
  }

  /** `Equals(other, StringComparison.InvariantCultureIgnoreCase)` against a
      nullable argument: a null argument never matches. */
  predicate NameMatches(m: IndexMap, name: Option<string>)
    ensures NameMatches(m, name) ==> name.Some? && |name.value| == |m.name|
    ensures name == Some(m.name) ==> NameMatches(m, name)
  {
    name.Some? && Lower(m.name) == Lower(name.value)
  }

  // ---------------------------------------------------------------------
  // Index resolution

  /** `i` is the position of the first index map whose name matches `name`. */
  predicate IsFirstMatch(maps: seq<IndexMap>, name: Option<string>, i: nat)
  {
    i < |maps| && NameMatches(maps[i], name) &&
    forall j :: 0 <= j < i ==> !NameMatches(maps[j], name)
  }

  /** `FirstOrDefault` over the index maps: the position of the first map whose
      name matches case-insensitively, or `None` when no map matches
      (`FirstMatchIsFirst` states this). */
  function FirstMatch(maps: seq<IndexMap>, name: Option<string>): (r: Option<nat>)
    ensures r.Some? ==> r.value < |maps|
  {
    if maps == [] then None
    else if NameMatches(maps[0], name) then Some(0)
    else match FirstMatch(maps[1..], name)
      case None => None
      case Some(i) => Some(i + 1)
  }

  /** `FirstMatch` finds the first matching map, and finds nothing exactly when no map matches. */
  lemma {:induction false} FirstMatchIsFirst(maps: seq<IndexMap>, name: Option<string>)
    ensures FirstMatch(maps, name).Some? ==> IsFirstMatch(maps, name, FirstMatch(maps, name).value)
    ensures FirstMatch(maps, name).None? <==> forall j :: 0 <= j < |maps| ==> !NameMatches(maps[j], name)
  {
    if maps != [] && !NameMatches(maps[0], name) {
      FirstMatchIsFirst(maps[1..], name);
      assert forall j :: 1 <= j < |maps| ==> maps[j] == maps[1..][j - 1];
    }
  }

  /** The operator after the multi-value rewrite against the matched map. */
  function EffectiveOperator(m: IndexMap, op: CriteriaOperator): (r: CriteriaOperator)
    ensures r == Eqm <==> op == Eqm || (op == Eq && m.IsMultiValued())
    ensures r != op ==> op == Eq && m.IsMultiValued()
  {
    if m.IsMultiValued() && op == Eq then Eqm else op
  }

  /** The column and operator a criterion resolves to. */
  datatype Resolved = Resolved(column: string, op: CriteriaOperator)

  /** What `BuildCriteriaSelect` decides before rendering: nothing when there
      are no index maps or no map matches the criterion's name; otherwise the
      first matching map's own name and the rewritten operator. */
  function Resolve(indexMaps: Option<seq<IndexMap>>, name: Option<string>, op: CriteriaOperator): (r: Option<Resolved>)
    ensures r.None? <==> indexMaps.None? || forall j :: 0 <= j < |indexMaps.value| ==> !NameMatches(indexMaps.value[j], name)
    ensures r.Some? ==> exists i: nat :: IsFirstMatch(indexMaps.value, name, i) &&
                                    r.value == Resolved(indexMaps.value[i].name, EffectiveOperator(indexMaps.value[i], op))
  {
    if indexMaps.None? || |indexMaps.value| == 0 then None
    else
      FirstMatchIsFirst(indexMaps.value, name);
      match FirstMatch(indexMaps.value, name)
      case None => None
      case Some(i) => Some(Resolved(indexMaps.value[i].name, EffectiveOperator(indexMaps.value[i], op)))
  }

  /** There is at most one first match. */
  lemma FirstMatchUnique(maps: seq<IndexMap>, name: Option<string>, i: nat, k: nat)
    requires IsFirstMatch(maps, name, i) && IsFirstMatch(maps, name, k)
    ensures i == k
  {
  }

  /** Only the first match counts: maps after it are never consulted. */
  lemma {:induction false} FirstMatchOfConcatFound(a: seq<IndexMap>, b: seq<IndexMap>, name: Option<string>)
    requires FirstMatch(a, name).Some?
    ensures FirstMatch(a + b, name) == FirstMatch(a, name)
  {
    assert (a + b)[0] == a[0];
    if !NameMatches(a[0], name) {
      assert (a + b)[1..] == a[1..] + b;
      FirstMatchOfConcatFound(a[1..], b, name);
    }
  }

  /** Non-matching maps in front of the first match only shift its position. */
  lemma {:induction false} FirstMatchOfConcatSkipped(a: seq<IndexMap>, b: seq<IndexMap>, name: Option<string>)
    requires FirstMatch(a, name).None?
    ensures FirstMatch(a + b, name) == match FirstMatch(b, name)
                                       case None => None
                                       case Some(k) => Some(|a| + k)
  {
    if a == [] {
      assert a + b == b;
    } else {
      assert (a + b)[0] == a[0];
      assert (a + b)[1..] == a[1..] + b;
      FirstMatchOfConcatSkipped(a[1..], b, name);
    }
  }

  /** Two names equal up to case pick the same index map. */
  lemma {:induction false} FirstMatchIgnoresCase(maps: seq<IndexMap>, n1: string, n2: string)
    requires Lower(n1) == Lower(n2)
    ensures FirstMatch(maps, Some(n1)) == FirstMatch(maps, Some(n2))
  {
    if maps != [] {
      FirstMatchIgnoresCase(maps[1..], n1, n2);
    }
  }

  /** A criterion named in any letter case resolves the same way. */
  lemma ResolveIgnoresCase(indexMaps: Option<seq<IndexMap>>, n1: string, n2: string, op: CriteriaOperator)
    requires Lower(n1) == Lower(n2)
    ensures Resolve(indexMaps, Some(n1), op) == Resolve(indexMaps, Some(n2), op)
  {
    if indexMaps.Some? {
      FirstMatchIgnoresCase(indexMaps.value, n1, n2);
    }
  }

  /** Resolving a criterion again after its operator was rewritten (a reused
      criterion object) gives the same column and operator. */
  lemma ResolveStableOnReuse(indexMaps: Option<seq<IndexMap>>, name: Option<string>, op: CriteriaOperator)
    requires Resolve(indexMaps, name, op).Some?
    ensures Resolve(indexMaps, name, Resolve(indexMaps, name, op).value.op) == Resolve(indexMaps, name, op)
  {
  }

  // ---------------------------------------------------------------------
  // Predicate rendering

  /** The text around the value for each operator: what comes between the
      column reference and the value, and what follows the value. */
  function Template(op: CriteriaOperator): (string, string)
  {
    match op
    case Gt => ("> '||", "' ")
    case Ge => (">= '||", "' ")
    case Lt => ("< '||", "' ")
    case Le => ("<= '||", "' ")
    case Contains => ("LIKE '||%", "%||' ")
    case Eqm => ("LIKE '%||", "||%' ")
    case Eq => ("= '||", "||' ")
  }

  /** Every template closes the value's quoted literal and ends with a space;
      `LIKE` is used exactly for the two pattern operators; only the range
      comparisons close the literal right after the value, with no `||`. */
  lemma TemplateShape(op: CriteriaOperator)
    ensures var r := Template(op);
            && |r.0| >= 4 && |r.1| >= 2 && r.1[|r.1| - 2..] == "' "
            && (r.0[0] == 'L' <==> op == Contains || op == Eqm)
            && (op == Contains || op == Eqm ==> |r.0| >= 6 && r.0[..6] == "LIKE '")
            && (r.1 == "' " <==> op == Gt || op == Ge || op == Lt || op == Le)
  {
  }

  /** The opening of every criteria fragment: ` AND [<column>_idx] `. */
  function ColumnReference(column: string): (r: string)
    ensures |r| == |column| + |SqlBuilder.IndexColumnNameSuffix| + 8
    ensures r[..6] == " AND [" && r[6..6 + |column|] == Lower(column)
    ensures r[6 + |column|..] == SqlBuilder.IndexColumnNameSuffix + "] "
  {
    " AND [" + Lower(column) + SqlBuilder.IndexColumnNameSuffix + "] "
  }

  /** Reads the operator back from the text that follows the column reference. */
  function OperatorOf(rest: string): Option<CriteriaOperator>
  {
    if |rest| >= 2 && rest[0] == '>' then Some(if rest[1] == '=' then Ge else Gt)
    else if |rest| >= 2 && rest[0] == '<' then Some(if rest[1] == '=' then Le else Lt)
    else if |rest| >= 1 && rest[0] == '=' then Some(Eq)
    else if |rest| >= 7 && rest[..5] == "LIKE " then Some(if rest[6] == '%' then Eqm else Contains)
    else None
  }

  /** Reads the operator and the value back from a criteria fragment rendered for `column`. */
  function ParseFragment(column: string, fragment: string): Option<(CriteriaOperator, string)>
  {
    var head := ColumnReference(column);
    if !(head <= fragment) then None
    else match OperatorOf(fragment[|head|..])
      case None => None
      case Some(op) =>
        var (lead, trail) := Template(op);
        if |fragment| < |head| + |lead| + |trail| then None
        else Some((op, fragment[|head| + |lead| .. |fragment| - |trail|]))
  }

  /** The builder itself; it keeps the options it was constructed with. */
  class SqlBuilder {
    const options: StorageOptions

    /** The marker appended to a lower-cased field name to name its index column. */
    static const IndexColumnNameSuffix := "_idx"

    constructor (options: StorageOptions)
      ensures this.options == options
    {
      this.options := options;
    }

    /** The constructor's null check: a null `options` is an `ArgumentNullException`. */
    static method Create(options: StorageOptions?) returns (r: Result<SqlBuilder, ArgumentError>)
      ensures r.Failure? <==> options == null
      ensures r.Failure? ==> r.error == ArgumentNull("options")
      ensures r.Success? ==> fresh(r.value) && r.value.options == options
    {
      if options == null {
        return Failure(ArgumentNull("options"));
      }
      var b := new SqlBuilder(options);
      r := Success(b);
    }

    /** The tag filter: a containment test of `||tag||` against the packed tags column.
        The tag is spliced in verbatim (null as empty) between a fixed head and tail. */
    static function BuildTagSelect(tag: Option<string>): (r: string)
      ensures |r| == |TagHead| + |Text(tag)| + |TagTail|
      ensures r[..|TagHead|] == TagHead && r[|r| - |TagTail|..] == TagTail
      ensures r[|TagHead|..|r| - |TagTail|] == Text(tag)
    {
      TagHead + Text(tag) + TagTail
    }

    static const TagHead := " AND [tags] LIKE '%||"
    static const TagTail := "||%'"

    /** Renders one criterion against the index column of `column`. A null or
        empty column renders nothing; otherwise the fragment opens with the
        lower-cased column reference and wraps the value in the operator's template. */
    static function BuildColumnSelect(column: Option<string>, op: CriteriaOperator, value: Option<string>): (r: Option<string>)
      ensures r.None? <==> IsNullOrEmpty(column)
      ensures r.Some? ==> r.value == ColumnReference(column.value) + Template(op).0 + Text(value) + Template(op).1
    {
      if IsNullOrEmpty(column) then None
      else
        var head := " AND [" + Lower(column.value) + IndexColumnNameSuffix + "] ";
        var v := Text(value);
        if op == Gt then Some(head + "> '||" + v + "' ")
        else if op == Ge then Some(head + ">= '||" + v + "' ")
        else if op == Lt then Some(head + "< '||" + v + "' ")
        else if op == Le then Some(head + "<= '||" + v + "' ")
        else if op == Contains then Some(head + "LIKE '||%" + v + "%||' ")
        else if op == Eqm then Some(head + "LIKE '%||" + v + "||%' ")
        else Some(head + "= '||" + v + "||' ")
    }

    /** The paging clause: empty for every skip and take, so paging never restricts a query. */
    static function BuildPagingSelect(skip: int, take: int): (r: string)
      ensures r == ""
    {
      ""
    }

    /** The table enumeration query: the same text on every call. */
    static function TableNamesSelect(): (r: string)
      ensures r == TableNamesQuery
    {
      TableNamesQuery
    }

    static const TableNamesQuery := "\n    SELECT QUOTENAME(TABLE_SCHEMA) + '.' + QUOTENAME(TABLE_NAME) AS Name\n    FROM INFORMATION_SCHEMA.TABLES"

    /** Resolves `criteria` against `indexMaps` and renders it. When the matched
        map is multi-valued an `Eq` criterion is rewritten to `Eqm` in place; no
        other field of the criterion changes, and nothing changes when the
        criterion does not resolve. */
    method BuildCriteriaSelect(indexMaps: Option<seq<IndexMap>>, criteria: Criteria?) returns (r: Option<string>)
      modifies criteria
      ensures criteria == null ==> r.None?
      ensures criteria != null ==> criteria.name == old(criteria.name) && criteria.value == old(criteria.value)
      ensures criteria != null ==>
                match Resolve(indexMaps, old(criteria.name), old(criteria.op))
                case None => r.None? && criteria.op == old(criteria.op)
                case Some(res) => criteria.op == res.op && r == BuildColumnSelect(Some(res.column), res.op, criteria.value)
    {
      if indexMaps.None? || |indexMaps.value| == 0 {
        return None;
      }
      if criteria == null {
        return None;
      }
      var found := FirstMatch(indexMaps.value, criteria.name);
      if found.None? {
        return None;
      }
      var indexMap := indexMaps.value[found.value];
      if indexMap.IsMultiValued() && criteria.op == Eq {
        criteria.op := Eqm;
      }
      r := BuildColumnSelect(Some(indexMap.name), criteria.op, criteria.value);
    }
  }

  // ---------------------------------------------------------------------
  // Properties of the rendered text

  /** A fragment can be read back: it determines the operator and the value it was rendered from. */
  lemma ParseBuiltFragment(column: string, op: CriteriaOperator, value: Option<string>)
    requires column != ""
    ensures ParseFragment(column, SqlBuilder.BuildColumnSelect(Some(column), op, value).value) == Some((op, Text(value)))
  {
    ParseRendered(ColumnReference(column), column, op, Text(value));
  }

  /** Parsing the column reference followed by an operator template around a value. */
  lemma ParseRendered(head: string, column: string, op: CriteriaOperator, v: string)
    requires head == ColumnReference(column)
    ensures ParseFragment(column, head + Template(op).0 + v + Template(op).1) == Some((op, v))
  {
    var lead := Template(op).0;
    var trail := Template(op).1;
    var rest := lead + v + trail;
    var f := head + lead + v + trail;
    assert f == head + rest;
    assert f[..|head|] == head && f[|head|..] == rest;
    OperatorOfTemplate(op, v);
    assert rest[|lead| .. |rest| - |trail|] == v;
  }

  /** The operator can be read back from the text after the column reference. */
  lemma OperatorOfTemplate(op: CriteriaOperator, v: string)
    ensures OperatorOf(Template(op).0 + v + Template(op).1) == Some(op)
  {
    var rest := Template(op).0 + v + Template(op).1;
    assert rest[..|Template(op).0|] == Template(op).0;
  }

  /** For one column, two fragments are equal exactly when their operators
      and their value texts are: different operators, or different values,
      never render the same fragment. */
  lemma BuildColumnSelectInjective(column: string, op1: CriteriaOperator, v1: Option<string>, op2: CriteriaOperator, v2: Option<string>)
    requires column != ""
    ensures SqlBuilder.BuildColumnSelect(Some(column), op1, v1) == SqlBuilder.BuildColumnSelect(Some(column), op2, v2)
            <==> op1 == op2 && Text(v1) == Text(v2)
  {
    ParseBuiltFragment(column, op1, v1);
    ParseBuiltFragment(column, op2, v2);
  }

  /** The column reference depends only on the lower-cased column name. */
  lemma BuildColumnSelectIgnoresCase(c1: string, c2: string, op: CriteriaOperator, value: Option<string>)
    requires Lower(c1) == Lower(c2)
    ensures SqlBuilder.BuildColumnSelect(Some(c1), op, value) == SqlBuilder.BuildColumnSelect(Some(c2), op, value)
  {
  }

  /** The column is rendered from the matched map's own name, which renders
      exactly as the criterion's name would. */
  lemma ResolvedColumnRendersAsCriterionName(indexMaps: Option<seq<IndexMap>>, name: string, op: CriteriaOperator, value: Option<string>)
    requires Resolve(indexMaps, Some(name), op).Some?
    ensures var res := Resolve(indexMaps, Some(name), op).value;
            SqlBuilder.BuildColumnSelect(Some(res.column), res.op, value) == SqlBuilder.BuildColumnSelect(Some(name), res.op, value)
  {
    var res := Resolve(indexMaps, Some(name), op).value;
    var i: nat :| IsFirstMatch(indexMaps.value, Some(name), i) &&
             res == Resolved(indexMaps.value[i].name, EffectiveOperator(indexMaps.value[i], op));
    BuildColumnSelectIgnoresCase(res.column, name, res.op, value);
  }
}

/** Worked examples of the builder on concrete index maps and criteria. */
module SqlBuildingExamples {
  import opened Nullable
  import opened SqlBuilding

  /** A single-valued field keeps `Eq`. */
  lemma SingleValuedKeepsEq()
    ensures Resolve(Some([IndexMap("status", Some("active"), None)]), Some("status"), Eq) == Some(Resolved("status", Eq))
  {
  }

  /** A multi-valued field turns `Eq` into `Eqm`. */
  lemma MultiValuedRewritesEq()
    ensures Resolve(Some([IndexMap("tags", None, Some(["a", "b"]))]), Some("tags"), Eq) == Some(Resolved("tags", Eqm))
  {
  }

  /** Names match in any letter case, and the map's own name is the one rendered. */
  lemma MatchIgnoresCase()
    ensures Resolve(Some([IndexMap("Price", Some("5"), None)]), Some("price"), Gt) == Some(Resolved("Price", Gt))
  {
    PriceLowerCase();
    LowerOfLowerCase("price");
  }

  lemma PriceLowerCase()
    ensures Lower("Price") == "price"
  {
    LowerAt("Price", 0);
    assert "Price" == ['P'] + "rice";
    LowerOfLowerCase("rice");
  }

  /** A criterion on a field with no index map renders nothing. */
  lemma MissingField()
    ensures Resolve(Some([IndexMap("status", Some("active"), None)]), Some("missingField"), Eq).None?
  {
    assert |Lower("status")| != |Lower("missingField")|;
  }

  /** A single-valued field compared for equality. */
  lemma StatusEqFragment()
    ensures SqlBuilder.BuildColumnSelect(Some("status"), Eq, Some("done")) == Some(" AND [status_idx] = '||done||' ")
  {
    LowerOfLowerCase("status");
    assert ColumnReference("status") == " AND [status_idx] ";
    assert Template(Eq) == ("= '||", "||' ");
    StatusEqText();
  }

  /** The pieces of the StatusEqFragment example, joined. */
  lemma StatusEqText()
    ensures " AND [status_idx] " + "= '||" + "done" + "||' " == " AND [status_idx] = '||done||' "
  {
    assert " AND [status_idx] " + "= '||" == " AND [status_idx] = '||";
    assert " AND [status_idx] = '||" + "done" == " AND [status_idx] = '||done";
  }

  /** A multi-valued field after the rewrite to `Eqm`. */
  lemma TagsEqmFragment()
    ensures SqlBuilder.BuildColumnSelect(Some("tags"), Eqm, Some("a")) == Some(" AND [tags_idx] LIKE '%||a||%' ")
  {
    LowerOfLowerCase("tags");
    assert ColumnReference("tags") == " AND [tags_idx] ";
    assert Template(Eqm) == ("LIKE '%||", "||%' ");
    TagsEqmText();
  }

  /** The pieces of the TagsEqmFragment example, joined. */
  lemma TagsEqmText()
    ensures " AND [tags_idx] " + "LIKE '%||" + "a" + "||%' " == " AND [tags_idx] LIKE '%||a||%' "
  {
    assert " AND [tags_idx] " + "LIKE '%||" == " AND [tags_idx] LIKE '%||";
    assert " AND [tags_idx] LIKE '%||" + "a" == " AND [tags_idx] LIKE '%||a";
  }

  /** A range comparison: no closing `||` after the value. */
  lemma PriceGtFragment()
    ensures SqlBuilder.BuildColumnSelect(Some("price"), Gt, Some("5")) == Some(" AND [price_idx] > '||5' ")
  {
    LowerOfLowerCase("price");
    assert ColumnReference("price") == " AND [price_idx] ";
    assert Template(Gt) == ("> '||", "' ");
    PriceGtText();
  }

  /** The pieces of the PriceGtFragment example, joined. */
  lemma PriceGtText()
    ensures " AND [price_idx] " + "> '||" + "5" + "' " == " AND [price_idx] > '||5' "
  {
    assert " AND [price_idx] " + "> '||" == " AND [price_idx] > '||";
    assert " AND [price_idx] > '||" + "5" == " AND [price_idx] > '||5";
  }

  /** The tag filter for one tag. */
  lemma TagFilterExample()
    ensures SqlBuilder.BuildTagSelect(Some("urgent")) == " AND [tags] LIKE '%||urgent||%'"
  {
  }

  /** Paging with a skip and a take still adds nothing to the query. */
  lemma PagingExample()
    ensures SqlBuilder.BuildPagingSelect(5, 10) == ""
  {
  }
}

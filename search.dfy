/**
 * The `/buscar-*` endpoints: the query parameter defaults to `''` and is bound as
 * `'%' + q + '%'` against one name column with `LIKE`; the rows found are sent as JSON, and a
 * refused query is answered 500 with a JSON error.
 */
module Search {
  import opened Http
  import opened Store
  import Seqs
  import Strings

  /** `` `%${req.query.query || ''}%` ``: the bound pattern. */
  function Pattern(query: Param): string
  {
    "%" + OrElse(query, "") + "%"
  }

  /**
   * `column LIKE pattern` in a `WHERE` clause: on a NULL column the comparison is NULL, and
   * `WHERE` drops the row.
   */
  predicate LikeValue(pattern: string, v: Value)
  {
    v.Scalar? && Strings.Like(pattern, v.text)
  }

  /** The rows whose searched column is not NULL, in order. */
  function NonNullRows<T(!new)>(rows: seq<T>, name: T -> Value): seq<T>
  {
    Seqs.Filter(rows, row => name(row).Scalar?)
  }

  /**
   * `SELECT * FROM <view> WHERE <column> LIKE ?` over the view's rows, where `name` reads the
   * searched column of a row; the rows are taken in the view's order. No row whose column is
   * NULL is ever returned, whatever the query.
   */
  function Run<T(!new)>(rows: seq<T>, name: T -> Value, query: Param): (found: seq<T>)
    ensures forall row :: row in found ==> row in rows && name(row).Scalar?
  {
    Seqs.Filter(rows, row => LikeValue(Pattern(query), name(row)))
  }

  /** What a search endpoint sends: the rows found, or status 500 with its JSON error. */
  datatype SearchReply<T> = Rows(rows: seq<T>) | JsonError(status: nat, error: string)

  const UsersError := "Error al buscar usuarios"
  const PatientsError := "Error al buscar pacientes"
  const DoctorsError := "Error al buscar médicos"
  const EquipmentError := "Error al buscar equipos"

  /**
   * One search handler, `errorText` being its own message: a refused query is answered 500
   * with that message and no rows; otherwise the rows the `LIKE` query finds are sent.
   */
  function Respond<T(!new)>(rows: seq<T>, name: T -> Value, query: Param, fault: bool,
                            errorText: string): (r: SearchReply<T>)
    ensures r.JsonError? <==> fault
    ensures r.JsonError? ==> r.status == 500 && r.error == errorText
    ensures r.Rows? ==> r.rows == Run(rows, name, query)
    ensures r.Rows? ==> forall row :: row in r.rows <==> row in rows && LikeValue(Pattern(query), name(row))
  {
    if fault then JsonError(500, errorText) else Rows(Run(rows, name, query))
  }

  /**
   * A missing or empty query returns every row whose column is not NULL, in order: all the
   * rows when no column is NULL, and never the NULL ones.
   */
  lemma EmptyQueryListsAll<T(!new)>(rows: seq<T>, name: T -> Value, query: Param)
    requires !Truthy(query)
    ensures Run(rows, name, query) == NonNullRows(rows, name)
    ensures (forall i :: 0 <= i < |rows| ==> name(rows[i]).Scalar?) ==> Run(rows, name, query) == rows
  {
    assert Pattern(query) == "%%";
    forall i | 0 <= i < |rows|
      ensures LikeValue(Pattern(query), name(rows[i])) == name(rows[i]).Scalar?
    {
      if name(rows[i]).Scalar? {
        Strings.EmptyPatternMatchesAll(name(rows[i]).text);
      }
    }
    Seqs.FilterCongruent(rows, row => LikeValue(Pattern(query), name(row)), row => name(row).Scalar?);
    if forall i :: 0 <= i < |rows| ==> name(rows[i]).Scalar? {
      Seqs.FilterAll(rows, row => name(row).Scalar?);
    }
  }

  /**
   * A query with no `LIKE` metacharacters is substring search: the result holds exactly the
   * rows whose column is not NULL and contains the query, in their original order.
   */
  lemma PlainQueryIsSubstringSearch<T(!new)>(rows: seq<T>, name: T -> Value, q: string)
    requires Strings.Plain(q)
    ensures Run(rows, name, Text(q)) ==
            Seqs.Filter(rows, row => name(row).Scalar? && Strings.Contains(name(row).text, q))
    ensures forall row :: row in Run(rows, name, Text(q)) <==>
              row in rows && name(row).Scalar? && Strings.IsSubstring(q, name(row).text)
  {
    assert Pattern(Text(q)) == "%" + q + "%";
    forall s: string
      ensures Strings.Like(Pattern(Text(q)), s) == Strings.Contains(s, q)
    {
      Strings.SurroundedPatternIsSubstring(q, s);
      Strings.ContainsIsSubstring(s, q);
    }
    var byLike := row => LikeValue(Pattern(Text(q)), name(row));
    var byContains := row => name(row).Scalar? && Strings.Contains(name(row).text, q);
    Seqs.FilterCongruent(rows, byLike, byContains);
    forall row | row in rows && name(row).Scalar?
      ensures Strings.Contains(name(row).text, q) <==> Strings.IsSubstring(q, name(row).text)
    {
      Strings.ContainsIsSubstring(name(row).text, q);
    }
  }

  /**
   * The query is not escaped: a user who types `%` gets the same rows as with an empty query,
   * every row whose column is not NULL.
   */
  lemma PercentQueryListsAll<T(!new)>(rows: seq<T>, name: T -> Value)
    ensures Run(rows, name, Text("%")) == NonNullRows(rows, name)
  {
    assert Pattern(Text("%")) == "%" + "%%";
    forall i | 0 <= i < |rows|
      ensures LikeValue(Pattern(Text("%")), name(rows[i])) == name(rows[i]).Scalar?
    {
      if name(rows[i]).Scalar? {
        var s := name(rows[i]).text;
        Strings.EmptyPatternMatchesAll(s);
        Strings.LikeLeadingPercent("%%", s);
        assert s[0..] == s;
      }
    }
    Seqs.FilterCongruent(rows, row => LikeValue(Pattern(Text("%")), name(row)), row => name(row).Scalar?);
  }
}

/**
 The patient's radiography history table: a case-insensitive search over
 the record id and status, and the badge and icon of each status.
 */
module RadiographyHistory {
  import opened Common
  import opened Text
  import opened Seqs
  import opened PatientDashboard

  /** A record matches when its id or its status includes the term, ignoring case. */
  predicate MatchesSearch(r: PatientRecord, term: string)
  {
    Contains(Lower(r.radiografiaId), Lower(term)) || Contains(Lower(r.estado), Lower(term))
  }

  /** `filteredRecords` */
  function FilterRecords(records: seq<PatientRecord>, term: string): (r: seq<PatientRecord>)
    ensures forall x :: x in r <==> x in records && MatchesSearch(x, term)
    ensures IsSubsequence(r, records)
  {
    var p := (x: PatientRecord) => MatchesSearch(x, term);
    forall x ensures x in Filter(p, records) <==> x in records && p(x) {
      FilterMembership(p, records, x);
    }
    FilterIsSubsequence(p, records);
    Filter(p, records)
  }

  /** An empty search shows every record, in order. */
  lemma EmptySearchKeepsAll(records: seq<PatientRecord>)
    ensures FilterRecords(records, "") == records
  {
    var p := (x: PatientRecord) => MatchesSearch(x, "");
    forall x | x in records ensures p(x) {
      ContainsEmpty(Lower(x.radiografiaId));
    }
    FilterKeepsAll(p, records);
  }

  /** The search ignores the case of the term. */
  lemma SearchIgnoresCase(records: seq<PatientRecord>, term: string)
    ensures FilterRecords(records, Lower(term)) == FilterRecords(records, term)
  {
    LowerIdempotent(term);
    FilterExtensional((x: PatientRecord) => MatchesSearch(x, Lower(term)),
                      (x: PatientRecord) => MatchesSearch(x, term), records);
  }

  /** Searching the search result again with the same term changes nothing. */
  lemma SearchIdempotent(records: seq<PatientRecord>, term: string)
    ensures FilterRecords(FilterRecords(records, term), term) == FilterRecords(records, term)
  {
    FilterIdempotent((x: PatientRecord) => MatchesSearch(x, term), records);
  }

  /** Whatever includes `a + b` includes `a`. */
  lemma ContainsPrefixOfNeedle(s: string, a: string, b: string)
    requires Contains(s, a + b)
    ensures Contains(s, a)
  {
    ContainsIff(s, a + b);
    var i :| OccursAt(s, a + b, i);
    assert s[i..i + |a|] == s[i..i + |a + b|][..|a|];
    assert OccursAt(s, a, i);
    ContainsIff(s, a);
  }

  /** Typing more characters into the search box never brings a record back. */
  lemma LongerTermNarrows(records: seq<PatientRecord>, a: string, b: string)
    ensures forall x :: x in FilterRecords(records, a + b) ==> x in FilterRecords(records, a)
  {
    LowerAppend(a, b);
    forall x | x in FilterRecords(records, a + b)
      ensures MatchesSearch(x, a)
    {
      if Contains(Lower(x.radiografiaId), Lower(a) + Lower(b)) {
        ContainsPrefixOfNeedle(Lower(x.radiografiaId), Lower(a), Lower(b));
      } else {
        ContainsPrefixOfNeedle(Lower(x.estado), Lower(a), Lower(b));
      }
    }
  }

  /** `getStatusColor`: the badge variant of a status. */
  function GetStatusColor(estado: string): (v: string)
    ensures v == "default" <==> estado == Validated
    ensures v == "secondary" <==> estado == Processed
    ensures v == "outline" <==> estado != Validated && estado != Processed
  {
    if estado == Validated then "default" else if estado == Processed then "secondary" else "outline"
  }

  /** `getStatusIcon` */
  function GetStatusIcon(estado: string): (icon: string)
    ensures icon == "✓" <==> estado == Validated
    ensures icon == "⏳" <==> estado == Processed
    ensures icon == "📤" <==> estado == Uploaded
    ensures icon == "?" <==> estado !in {Validated, Processed, Uploaded}
  {
    StatusesDistinct();
    if estado == Validated then "✓"
    else if estado == Processed then "⏳"
    else if estado == Uploaded then "📤"
    else "?"
  }

  /**
   Every record the patient dashboard produces has a known icon, and the
   badge and icon name the same status.
   */
  lemma MappedRecordsHaveKnownIcons(c: PatientCase)
    ensures GetStatusIcon(MapCase(c).estado) != "?"
    ensures GetStatusColor(MapCase(c).estado) == "outline" <==> GetStatusIcon(MapCase(c).estado) == "📤"
  {
    StatusesDistinct();
  }

  /** The "Resultado preliminar" cell: the label, or a dash when there is none. */
  function ResultCell(r: PatientRecord): (cell: string)
    ensures Truthy(r.resultadoPreliminar) ==> cell == r.resultadoPreliminar.value
    ensures !Truthy(r.resultadoPreliminar) ==> cell == "-"
  {
    OrElse(r.resultadoPreliminar, "-")
  }
}

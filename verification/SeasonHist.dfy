/** Previous-season lines scored by house rules (season_hist.go): the fold over a season's rows,
    the fingerprint of a scoring table, and the memo the fingerprint keys. Number printing,
    player keys, scoring and the rendered line are parameters. */
module SeasonHist {
  import opened Text

  type Values = map<string, real>

  // ---------------------------------------------------------------- scoringValuesFingerprint

  datatype Pair = Pair(key: string, text: string)

  function Entry(p: Pair): string
  {
    p.key + "=" + p.text + ";"
  }

  function Rendered(pairs: seq<Pair>): string
  {
    if pairs == [] then "" else Rendered(pairs[..|pairs| - 1]) + Entry(pairs[|pairs| - 1])
  }

  function Pairs(keys: seq<string>, values: Values, show: real -> string): (pairs: seq<Pair>)
    requires forall k :: k in keys ==> k in values
    ensures |pairs| == |keys|
    ensures forall i :: 0 <= i < |keys| ==> pairs[i] == Pair(keys[i], show(values[keys[i]]))
  {
    seq(|keys|, i requires 0 <= i < |keys| => Pair(keys[i], show(values[keys[i]])))
  }

  /** A text is a map's fingerprint when every enumeration of its keys, sorted, renders as it. */
  ghost predicate IsFingerprint(text: string, values: Values, show: real -> string)
  {
    (exists keys :: Enumerates(keys, values)) &&
    forall keys :: Enumerates(keys, values) ==>
      (forall k :: k in SortStrings(keys) ==> k in values) && text == Rendered(Pairs(SortStrings(keys), values, show))
  }

  /** The order in which Go walks the map does not matter. */
  method ScoringValuesFingerprint(values: Values, show: real -> string) returns (text: string)
    ensures IsFingerprint(text, values, show)
  {
    var keys := KeysOf(values);
    ghost var walked := keys;
    SortKeepsDistinct(keys);
    keys := SortStrings(keys);
    ghost var pairs := Pairs(keys, values, show);
    text := "";
    for i := 0 to |keys|
      invariant text == Rendered(pairs[..i])
    {
      assert pairs[..i + 1][..i] == pairs[..i];
      text := text + (keys[i] + "=" + show(values[keys[i]]) + ";");
    }
    assert pairs[..|keys|] == pairs;
    forall other | Enumerates(other, values)
      ensures SortStrings(other) == keys
    {
      SortIgnoresOrder(walked, other);
    }
  }

  /** How numbers are printed: the ones in use apart from each other and without a ';'. */
  predicate Printable(show: real -> string, used: set<real>)
  {
    (forall x, y :: x in used && y in used && show(x) == show(y) ==> x == y) &&
    forall x :: x in used ==> ';' !in show(x)
  }

  predicate PlainKeys(values: Values)
  {
    forall k :: k in values ==> '=' !in k
  }

  function Front(pairs: seq<Pair>): string
  {
    if pairs == [] then "" else Entry(pairs[0]) + Front(pairs[1..])
  }

  lemma {:induction false} FrontAppend(pairs: seq<Pair>, p: Pair)
    ensures Front(pairs + [p]) == Front(pairs) + Entry(p)
  {
    if pairs == [] {
      assert ([p])[1..] == [] && Front([p]) == Entry(p) + "";
    } else {
      FrontAppend(pairs[1..], p);
      assert (pairs + [p])[1..] == pairs[1..] + [p];
      assert Entry(pairs[0]) + (Front(pairs[1..]) + Entry(p)) == Entry(pairs[0]) + Front(pairs[1..]) + Entry(p);
    }
  }

  lemma {:induction false} RenderedFromFront(pairs: seq<Pair>)
    ensures Rendered(pairs) == Front(pairs)
  {
    if pairs != [] {
      var n := |pairs| - 1;
      RenderedFromFront(pairs[..n]);
      FrontAppend(pairs[..n], pairs[n]);
      assert pairs == pairs[..n] + [pairs[n]];
    }
  }

  lemma KeyReadsBack(p: Pair, rest: string)
    requires '=' !in p.key
    ensures CutAt(Entry(p) + rest, '=') == Cut(p.key, p.text + ";" + rest)
  {
    CutFirst(p.key, '=', p.text + ";" + rest);
    assert Entry(p) + rest == p.key + ['='] + (p.text + ";" + rest);
  }

  lemma TextReadsBack(p: Pair, rest: string)
    requires ';' !in p.text
    ensures CutAt(p.text + ";" + rest, ';') == Cut(p.text, rest)
  {
    CutFirst(p.text, ';', rest);
  }

  predicate Readable(pairs: seq<Pair>)
  {
    forall p :: p in pairs ==> '=' !in p.key && ';' !in p.text
  }

  /** Without '=' in keys and ';' in numbers the text can be read back. */
  lemma {:induction false} FrontIsInjective(a: seq<Pair>, b: seq<Pair>)
    requires Readable(a) && Readable(b) && Front(a) == Front(b)
    ensures a == b
    decreases |a|
  {
    if a == [] || b == [] {
      assert a == b;
    } else {
      assert a[0] in a && b[0] in b;
      KeyReadsBack(a[0], Front(a[1..]));
      KeyReadsBack(b[0], Front(b[1..]));
      TextReadsBack(a[0], Front(a[1..]));
      TextReadsBack(b[0], Front(b[1..]));
      FrontIsInjective(a[1..], b[1..]);
      assert a == [a[0]] + a[1..] && b == [b[0]] + b[1..];
    }
  }

  /** Equal maps have equal fingerprints and different maps different ones. */
  lemma FingerprintDecides(a: Values, b: Values, show: real -> string, textA: string, textB: string)
    requires Printable(show, a.Values + b.Values) && PlainKeys(a) && PlainKeys(b)
    requires IsFingerprint(textA, a, show) && IsFingerprint(textB, b, show)
    ensures textA == textB <==> a == b
  {
    var keysA :| Enumerates(keysA, a);
    var keysB :| Enumerates(keysB, b);
    if a == b {
      SortIgnoresOrder(keysA, keysB);
    }
    if textA == textB {
      var sortedA := SortedKeys(keysA, a);
      var sortedB := SortedKeys(keysB, b);
      SameTextSameMap(sortedA, a, sortedB, b, show);
    }
  }

  lemma SortedKeys(keys: seq<string>, values: Values) returns (sorted: seq<string>)
    requires Enumerates(keys, values)
    ensures sorted == SortStrings(keys) && forall k :: k in sorted <==> k in values
  {
    sorted := SortStrings(keys);
    SortKeepsDistinct(keys);
  }

  lemma PairsReadable(keys: seq<string>, values: Values, show: real -> string)
    requires Printable(show, values.Values) && PlainKeys(values) && forall k :: k in keys ==> k in values
    ensures Readable(Pairs(keys, values, show))
  {
    var pairs := Pairs(keys, values, show);
    forall p | p in pairs
      ensures '=' !in p.key && ';' !in p.text
    {
      var i :| 0 <= i < |pairs| && pairs[i] == p;
      var value := values[keys[i]];
      assert p == Pair(keys[i], show(value)) && ';' !in show(value);
    }
  }

  lemma SameTextSameMap(keysA: seq<string>, a: Values, keysB: seq<string>, b: Values, show: real -> string)
    requires Printable(show, a.Values + b.Values) && PlainKeys(a) && PlainKeys(b)
    requires (forall k :: k in keysA <==> k in a) && (forall k :: k in keysB <==> k in b)
    requires Rendered(Pairs(keysA, a, show)) == Rendered(Pairs(keysB, b, show))
    ensures a == b
  {
    var pairsA, pairsB := Pairs(keysA, a, show), Pairs(keysB, b, show);
    RenderedFromFront(pairsA);
    RenderedFromFront(pairsB);
    PairsReadable(keysA, a, show);
    PairsReadable(keysB, b, show);
    FrontIsInjective(pairsA, pairsB);
    SamePairsSameMap(keysA, a, keysB, b, show);
  }

  lemma SamePairsSameMap(keysA: seq<string>, a: Values, keysB: seq<string>, b: Values, show: real -> string)
    requires Printable(show, a.Values + b.Values)
    requires (forall k :: k in keysA <==> k in a) && (forall k :: k in keysB <==> k in b)
    requires Pairs(keysA, a, show) == Pairs(keysB, b, show)
    ensures a == b
  {
    var pairsA, pairsB := Pairs(keysA, a, show), Pairs(keysB, b, show);
    assert |keysA| == |keysB|;
    forall i | 0 <= i < |keysA|
      ensures keysA[i] == keysB[i] && a[keysA[i]] == b[keysB[i]]
    {
      assert pairsA[i] == pairsB[i];
    }
    assert keysA == keysB;
    forall k | k in a
      ensures k in b && a[k] == b[k]
    {
      var i :| 0 <= i < |keysA| && keysA[i] == k;
    }
  }

  // ---------------------------------------------------------------- currentScoringValues

  /** The league's live table: each rule's default, or the stored value of that rule. */
  function Live(defaults: Values, stored: Values): Values
  {
    map k | k in defaults :: if k in stored then stored[k] else defaults[k]
  }

  /** currentScoringValues: a stored key that is no rule's is skipped. */
  method CurrentScoringValues(defaults: Values, stored: Values) returns (values: Values)
    ensures values == Live(defaults, stored)
  {
    values := defaults;
    var keys := KeysOf(stored);
    for i := 0 to |keys|
      invariant values.Keys == defaults.Keys
      invariant forall k :: k in values ==> values[k] == if k in keys[..i] then stored[k] else defaults[k]
    {
      assert keys[..i + 1] == keys[..i] + [keys[i]];
      if keys[i] in values {
        values := values[keys[i] := stored[keys[i]]];
      }
    }
    assert keys[..|keys|] == keys;
  }

  /** The two states score every rule alike. */
  predicate ScoreAlike(defaults: Values, a: Values, b: Values)
  {
    forall k :: k in defaults ==> Live(defaults, a)[k] == Live(defaults, b)[k]
  }

  lemma AlikeMeansSameTable(defaults: Values, a: Values, b: Values)
    ensures ScoreAlike(defaults, a, b) <==> Live(defaults, a) == Live(defaults, b)
  {
  }

  lemma LiveIsPlain(defaults: Values, stored: Values)
    requires PlainKeys(defaults)
    ensures PlainKeys(Live(defaults, stored))
  {
  }

  /** Two states of a league have one fingerprint exactly when they score every rule alike, whatever
      the store holds: no key but a rule's reaches the table, and no rule's key has an '='. */
  lemma LiveFingerprintDecides(defaults: Values, a: Values, b: Values, show: real -> string, textA: string,
                               textB: string)
    requires Printable(show, Live(defaults, a).Values + Live(defaults, b).Values) && PlainKeys(defaults)
    requires IsFingerprint(textA, Live(defaults, a), show) && IsFingerprint(textB, Live(defaults, b), show)
    ensures textA == textB <==> ScoreAlike(defaults, a, b)
  {
    LiveIsPlain(defaults, a);
    LiveIsPlain(defaults, b);
    AlikeMeansSameTable(defaults, a, b);
    FingerprintDecides(Live(defaults, a), Live(defaults, b), show, textA, textB);
  }

  // ---------------------------------------------------------------- buildSeasonHouseHistIndex

  datatype Row = Row(
    name: string, position: string, season: int, week: int, passYds: real, passTD: real, passInt: real, rushYds: real,
    rushTD: real, receptions: real, recYds: real, recTD: real, fgMade: real, fgMissed: real, fgBlocked: real,
    xpMade: real)

  datatype Totals = Totals(
    passYds: real, passTD: real, passInt: real, rushYds: real, rushTD: real, receptions: real, recYds: real,
    recTD: real, fgMade: real, fgMissed: real, xpMade: real, points: real)

  datatype Accumulator = Accumulator(position: string, season: int, weeks: set<int>, totals: Totals)

  /** What the adapter is built from: normalised player keys, the league's scoring, the line template. */
  datatype Rules = Rules(
    key: (string, string) -> string, score: (Row, Values) -> real, line: Accumulator -> string,
    show: real -> string)

  const HOUSE_POSITIONS := {"QB", "RB", "WR", "TE", "K"}
  const NO_TOTALS := Totals(0.0, 0.0, 0.0, 0.0, 0.0, 0.0, 0.0, 0.0, 0.0, 0.0, 0.0, 0.0)

  function RowTotals(row: Row, values: Values, rules: Rules): Totals
  {
    Totals(row.passYds, row.passTD, row.passInt, row.rushYds, row.rushTD, row.receptions, row.recYds, row.recTD,
           row.fgMade, row.fgMissed + row.fgBlocked, row.xpMade, rules.score(row, values))
  }

  function Plus(a: Totals, b: Totals): Totals
  {
    Totals(a.passYds + b.passYds, a.passTD + b.passTD, a.passInt + b.passInt, a.rushYds + b.rushYds,
           a.rushTD + b.rushTD, a.receptions + b.receptions, a.recYds + b.recYds, a.recTD + b.recTD,
           a.fgMade + b.fgMade, a.fgMissed + b.fgMissed, a.xpMade + b.xpMade, a.points + b.points)
  }

  function KeyOf(row: Row, rules: Rules): string
  {
    rules.key(row.name, row.position)
  }

  /** One player's rows, in the order they were read. */
  function RowsOf(rows: seq<Row>, key: string, rules: Rules): seq<Row>
  {
    if rows == [] then []
    else
      var row, rest := rows[|rows| - 1], RowsOf(rows[..|rows| - 1], key, rules);
      if row.position in HOUSE_POSITIONS && KeyOf(row, rules) == key then rest + [row] else rest
  }

  function Summed(rows: seq<Row>, values: Values, rules: Rules): Totals
  {
    if rows == [] then NO_TOTALS
    else Plus(Summed(rows[..|rows| - 1], values, rules), RowTotals(rows[|rows| - 1], values, rules))
  }

  /** A player's season: position and season of the first row, every week once, every row added. */
  function SeasonOf(rows: seq<Row>, values: Values, rules: Rules): Accumulator
    requires rows != []
  {
    Accumulator(rows[0].position, rows[0].season, set row | row in rows :: row.week, Summed(rows, values, rules))
  }

  ghost predicate IsIndex(index: map<string, string>, rows: seq<Row>, values: Values, rules: Rules)
  {
    forall key ::
      (key in index <==> RowsOf(rows, key, rules) != []) &&
      (key in index ==> index[key] == rules.line(SeasonOf(RowsOf(rows, key, rules), values, rules)))
  }

  function Begun(row: Row): Accumulator
  {
    Accumulator(row.position, row.season, {}, NO_TOTALS)
  }

  function Grown(acc: Accumulator, row: Row, values: Values, rules: Rules): Accumulator
  {
    acc.(weeks := acc.weeks + {row.week}, totals := Plus(acc.totals, RowTotals(row, values, rules)))
  }

  lemma WeeksGrow(rows: seq<Row>, row: Row)
    ensures (set r | r in rows + [row] :: r.week) == (set r | r in rows :: r.week) + {row.week}
  {
    assert forall r :: r in rows + [row] <==> r in rows || r == row;
    assert row in rows + [row];
  }

  lemma SumGrows(rows: seq<Row>, row: Row, values: Values, rules: Rules)
    ensures Summed(rows + [row], values, rules) == Plus(Summed(rows, values, rules), RowTotals(row, values, rules))
  {
    assert (rows + [row])[..|rows|] == rows;
  }

  lemma SeasonGrows(rows: seq<Row>, row: Row, values: Values, rules: Rules)
    ensures SeasonOf(rows + [row], values, rules) ==
            Grown(if rows == [] then Begun(row) else SeasonOf(rows, values, rules), row, values, rules)
  {
    WeeksGrow(rows, row);
    SumGrows(rows, row, values, rules);
  }

  ghost predicate Accumulated(accumulators: map<string, Accumulator>, rows: seq<Row>, values: Values, rules: Rules)
  {
    forall key ::
      (key in accumulators <==> RowsOf(rows, key, rules) != []) &&
      (key in accumulators ==> accumulators[key] == SeasonOf(RowsOf(rows, key, rules), values, rules))
  }

  function Updated(accumulators: map<string, Accumulator>, row: Row, values: Values, rules: Rules)
    : map<string, Accumulator>
  {
    var key := KeyOf(row, rules);
    if row.position !in HOUSE_POSITIONS then accumulators
    else
      accumulators[key := Grown(if key in accumulators then accumulators[key] else Begun(row), row, values, rules)]
  }

  lemma RowsOfAppend(rows: seq<Row>, row: Row, key: string, rules: Rules)
    ensures RowsOf(rows + [row], key, rules) ==
            RowsOf(rows, key, rules) + if row.position in HOUSE_POSITIONS && KeyOf(row, rules) == key then [row] else []
  {
    assert (rows + [row])[..|rows|] == rows;
  }

  lemma UpdateAccumulates(accumulators: map<string, Accumulator>, rows: seq<Row>, row: Row, values: Values,
                          rules: Rules)
    requires Accumulated(accumulators, rows, values, rules)
    ensures Accumulated(Updated(accumulators, row, values, rules), rows + [row], values, rules)
  {
    var after := Updated(accumulators, row, values, rules);
    forall key
      ensures key in after <==> RowsOf(rows + [row], key, rules) != []
      ensures key in after ==> after[key] == SeasonOf(RowsOf(rows + [row], key, rules), values, rules)
    {
      RowsOfAppend(rows, row, key, rules);
      SeasonGrows(RowsOf(rows, key, rules), row, values, rules);
    }
  }

  method Accumulate(rows: seq<Row>, values: Values, rules: Rules)
    returns (accumulators: map<string, Accumulator>, order: seq<string>)
    ensures Distinct(order) && forall key :: key in order <==> key in accumulators
    ensures Accumulated(accumulators, rows, values, rules)
  {
    accumulators, order := map[], [];
    for i := 0 to |rows|
      invariant Distinct(order) && forall key :: key in order <==> key in accumulators
      invariant Accumulated(accumulators, rows[..i], values, rules)
    {
      var row := rows[i];
      UpdateAccumulates(accumulators, rows[..i], row, values, rules);
      assert rows[..i + 1] == rows[..i] + [row];
      if row.position !in HOUSE_POSITIONS {
        continue;
      }
      var key := KeyOf(row, rules);
      var acc := Begun(row);
      if key in accumulators {
        acc := accumulators[key];
      } else {
        order := order + [key];
      }
      accumulators := accumulators[key := Grown(acc, row, values, rules)];
    }
    assert rows[..|rows|] == rows;
  }

  method BuildIndex(rows: seq<Row>, values: Values, rules: Rules) returns (index: map<string, string>)
    ensures IsIndex(index, rows, values, rules)
  {
    var accumulators, order := Accumulate(rows, values, rules);
    index := map[];
    for i := 0 to |order|
      invariant forall key :: key in index <==> key in order[..i]
      invariant forall key :: key in index ==> key in accumulators && index[key] == rules.line(accumulators[key])
    {
      index := index[order[i] := rules.line(accumulators[order[i]])];
    }
  }

  /** A player's line depends on that player's rows alone. */
  lemma LinesAreIndependent(a: map<string, string>, rowsA: seq<Row>, b: map<string, string>, rowsB: seq<Row>,
                            values: Values, rules: Rules, key: string)
    requires IsIndex(a, rowsA, values, rules) && IsIndex(b, rowsB, values, rules)
    requires RowsOf(rowsA, key, rules) == RowsOf(rowsB, key, rules)
    ensures key in a <==> key in b
    ensures key in a ==> a[key] == b[key]
  {
  }

  // ---------------------------------------------------------------- what a season adds up to

  datatype Stat =
    | PassYds | PassTD | PassInt | RushYds | RushTD | Receptions | RecYds | RecTD | FGMade | FGMissed | XPMade | Points

  function StatOf(t: Totals, stat: Stat): real
  {
    match stat
    case PassYds => t.passYds
    case PassTD => t.passTD
    case PassInt => t.passInt
    case RushYds => t.rushYds
    case RushTD => t.rushTD
    case Receptions => t.receptions
    case RecYds => t.recYds
    case RecTD => t.recTD
    case FGMade => t.fgMade
    case FGMissed => t.fgMissed
    case XPMade => t.xpMade
    case Points => t.points
  }

  /** What a row is worth: a blocked field goal is a missed one. */
  function Worth(row: Row, stat: Stat, values: Values, rules: Rules): real
  {
    match stat
    case PassYds => row.passYds
    case PassTD => row.passTD
    case PassInt => row.passInt
    case RushYds => row.rushYds
    case RushTD => row.rushTD
    case Receptions => row.receptions
    case RecYds => row.recYds
    case RecTD => row.recTD
    case FGMade => row.fgMade
    case FGMissed => row.fgMissed + row.fgBlocked
    case XPMade => row.xpMade
    case Points => rules.score(row, values)
  }

  predicate Mine(row: Row, key: string, rules: Rules)
  {
    row.position in {"QB", "RB", "WR", "TE", "K"} && rules.key(row.name, row.position) == key
  }

  function Total(rows: seq<Row>, key: string, stat: Stat, values: Values, rules: Rules): real
  {
    if rows == [] then 0.0
    else
      var n := |rows| - 1;
      Total(rows[..n], key, stat, values, rules) +
      if Mine(rows[n], key, rules) then Worth(rows[n], stat, values, rules) else 0.0
  }

  /** Every figure of a player's season is the sum over the player's house-position rows, wherever
      among the season's rows they stand; its weeks are those of these rows. */
  lemma SeasonAddsUp(rows: seq<Row>, key: string, stat: Stat, values: Values, rules: Rules)
    requires RowsOf(rows, key, rules) != []
    ensures var season := SeasonOf(RowsOf(rows, key, rules), values, rules);
            && StatOf(season.totals, stat) == Total(rows, key, stat, values, rules)
            && forall w :: w in season.weeks <==> exists row :: row in rows && Mine(row, key, rules) && row.week == w
  {
    SumIsTotal(rows, key, stat, values, rules);
    RowsAreMine(rows, key, rules);
    var mine := RowsOf(rows, key, rules);
    var weeks := set row | row in mine :: row.week;
    forall w
      ensures w in weeks <==>
              exists row :: row in rows && Mine(row, key, rules) && row.week == w
    {
      if row :| row in rows && Mine(row, key, rules) && row.week == w {
        assert row in mine;
      }
    }
  }

  lemma {:induction false} SumIsTotal(rows: seq<Row>, key: string, stat: Stat, values: Values, rules: Rules)
    ensures StatOf(Summed(RowsOf(rows, key, rules), values, rules), stat) == Total(rows, key, stat, values, rules)
  {
    if rows != [] {
      var n := |rows| - 1;
      SumIsTotal(rows[..n], key, stat, values, rules);
      SumGrows(RowsOf(rows[..n], key, rules), rows[n], values, rules);
    }
  }

  lemma {:induction false} RowsAreMine(rows: seq<Row>, key: string, rules: Rules)
    ensures forall row :: row in RowsOf(rows, key, rules) <==> row in rows && Mine(row, key, rules)
  {
    if rows != [] {
      var n := |rows| - 1;
      RowsAreMine(rows[..n], key, rules);
      assert rows == rows[..n] + [rows[n]];
    }
  }

  // ---------------------------------------------------------------- the memo

  class SeasonHistCache {
    const rules: Rules
    var season: int
    var fingerprint: string
    var index: map<string, string>
    ghost var builtRows: seq<Row>     // what the cached build read
    ghost var builtValues: Values

    ghost predicate Valid()
      reads this
    {
      index != map[] ==>
        IsIndex(index, builtRows, builtValues, rules) && IsFingerprint(fingerprint, builtValues, rules.show) &&
        PlainKeys(builtValues)
    }

    constructor (rules: Rules)
      ensures Valid() && this.rules == rules && index == map[]
    {
      this.rules := rules;
      season, fingerprint, index, builtRows, builtValues := 0, "", map[], [], map[];
    }

    /** Whether the cached build is not the one for this season and these values. */
    method Stale(values: Values, current: int, wanted: string) returns (stale: bool)
      requires Valid() && Printable(rules.show, builtValues.Values + values.Values) && PlainKeys(values)
      requires IsFingerprint(wanted, values, rules.show)
      ensures stale <==> index == map[] || season != current || builtValues != values
    {
      if index != map[] {
        FingerprintDecides(builtValues, values, rules.show, fingerprint, wanted);
      }
      stale := index == map[] || season != current || fingerprint != wanted;
    }

    method Rebuild(values: Values, current: int, wanted: string, rows: seq<Row>)
      requires PlainKeys(values) && IsFingerprint(wanted, values, rules.show)
      modifies this
      ensures Valid() && season == current && builtRows == rows && builtValues == values
      ensures IsIndex(index, rows, values, rules)
    {
      index := BuildIndex(rows, values, rules);
      season := current;
      fingerprint := wanted;
      builtRows, builtValues := rows, values;
    }

    /** One lookup: `current` is the season now, `rows` what a build would read now. The answer is
        that of a build under the caller's own season and values, on the rows the cached build
        read; an empty index is never reused. */
    method Lookup(name: string, position: string, values: Values, current: int, rows: seq<Row>)
      returns (line: Option<string>)
      requires Valid() && Printable(rules.show, builtValues.Values + values.Values) && PlainKeys(values)
      modifies this
      ensures Valid() && season == current && IsIndex(index, builtRows, values, rules)
      ensures var key := rules.key(name, position);
              line == if key in index then Some(index[key]) else None
      ensures old(index) == map[] || old(season) != current || old(builtValues) != values ==> builtRows == rows
      ensures old(index) != map[] && old(season) == current && old(builtValues) == values ==>
              index == old(index) && builtRows == old(builtRows)
    {
      var wanted := ScoringValuesFingerprint(values, rules.show);
      var stale := Stale(values, current, wanted);
      if stale {
        Rebuild(values, current, wanted, rows);
      }
      var key := rules.key(name, position);
      return if key in index then Some(index[key]) else None;
    }
  }
}

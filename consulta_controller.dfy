/** The non-DOM logic of the appointment controller: the `DD/MM/YYYY` input mask,
    the list filters of `carregarConsultas`, and the date shown in each row. */
module ConsultaController {
  import opened Wrappers
  import opened Json
  import Seqs

  /** A character the regular expression `\d` matches. */
  predicate IsDigit(c: char) {
    '0' <= c <= '9'
  }

  predicate NotSlash(c: char) {
    c != '/'
  }

  /** `value.replace(/\D/g, '')`: the digits of the input, in order. */
  function DigitsOf(s: string): (r: string)
    ensures forall i :: 0 <= i < |r| ==> IsDigit(r[i])
  {
    Seqs.Filter(IsDigit, s)
  }

  /** The first `min(8, |v|)` characters: `value.slice(0, 8)` when longer than 8. */
  function AtMostEight(v: string): (r: string)
    ensures |r| <= 8 && r <= v
    ensures |v| <= 8 ==> r == v
  {
    if |v| > 8 then v[..8] else v
  }

  predicate AllDigits(v: string) {
    forall i :: 0 <= i < |v| ==> IsDigit(v[i])
  }

  /** The slash insertion of the mask on the kept digits `value`. */
  function Slashed(value: string): string {
    if |value| > 4 then value[..2] + "/" + value[2..4] + "/" + value[4..]
    else if |value| > 2 then value[..2] + "/" + value[2..]
    else value
  }

  /** The listener on the date input: keep at most eight digits and insert a
      slash after the day and after the month as far as they are typed. */
  function DateMask(input: string): string {
    Slashed(AtMostEight(DigitsOf(input)))
  }

  /** Where the slashes go: none up to 2 digits, one after the 2nd for 3-4, and
      after the 2nd and the 4th for 5 or more; every other character is the next digit. */
  lemma SlashedLayout(v: string)
    ensures var r := Slashed(v);
            |v| <= 2 ==> r == v
    ensures var r := Slashed(v);
            2 < |v| <= 4 ==>
              |r| == |v| + 1 && r[2] == '/' &&
              (forall i :: 0 <= i < 2 ==> r[i] == v[i]) &&
              (forall i :: 3 <= i < |r| ==> r[i] == v[i - 1])
    ensures var r := Slashed(v);
            4 < |v| ==>
              |r| == |v| + 2 && r[2] == '/' && r[5] == '/' &&
              (forall i :: 0 <= i < 2 ==> r[i] == v[i]) &&
              (forall i :: 3 <= i < 5 ==> r[i] == v[i - 1]) &&
              (forall i :: 6 <= i < |r| ==> r[i] == v[i - 2])
  {
    var r := Slashed(v);
    if |v| > 4 {
      assert r == v[..2] + "/" + v[2..4] + "/" + v[4..];
    } else if |v| > 2 {
      assert r == v[..2] + "/" + v[2..];
    }
  }

  /** The mask writes only digits and slashes, at most ten characters, and puts
      a slash exactly after the 2nd and the 4th kept digit as far as they reach. */
  lemma DateMaskShape(input: string)
    ensures var v, r := AtMostEight(DigitsOf(input)), DateMask(input);
            |r| <= 10 &&
            (forall i :: 0 <= i < |r| ==> IsDigit(r[i]) || r[i] == '/') &&
            (|v| <= 2 ==> forall i :: 0 <= i < |r| ==> r[i] != '/') &&
            (2 < |v| <= 4 ==> forall i :: 0 <= i < |r| ==> (r[i] == '/' <==> i == 2)) &&
            (4 < |v| ==> forall i :: 0 <= i < |r| ==> (r[i] == '/' <==> i == 2 || i == 5))
  {
    var v := AtMostEight(DigitsOf(input));
    assert AllDigits(v);
    SlashedLayout(v);
  }

  /** A test that drops '/' drops the one between two pieces. */
  lemma FilterAcrossSlash(a: string, b: string, keep: char -> bool)
    requires !keep('/')
    ensures Seqs.Filter(keep, a + "/" + b) == Seqs.Filter(keep, a) + Seqs.Filter(keep, b)
  {
    Seqs.FilterAppend(keep, a + "/", b);
    Seqs.FilterAppend(keep, a, "/");
  }

  /** Filtering out the slashes of a slashed string, by any test that keeps
      its digits and drops '/', gives back the digits. */
  lemma SlashedFilter(v: string, keep: char -> bool)
    requires forall i :: 0 <= i < |v| ==> keep(v[i])
    requires !keep('/')
    ensures Seqs.Filter(keep, Slashed(v)) == v
  {
    if |v| > 4 {
      FilterTwoSlashes(v[..2], v[2..4], v[4..], keep);
      assert v[..2] + v[2..4] + v[4..] == v;
    } else if |v| > 2 {
      FilterOneSlash(v[..2], v[2..], keep);
      assert v[..2] + v[2..] == v;
    } else {
      Seqs.FilterKeepsAll(keep, v);
    }
  }

  lemma FilterOneSlash(a: string, b: string, keep: char -> bool)
    requires forall i :: 0 <= i < |a| ==> keep(a[i])
    requires forall i :: 0 <= i < |b| ==> keep(b[i])
    requires !keep('/')
    ensures Seqs.Filter(keep, a + "/" + b) == a + b
  {
    FilterAcrossSlash(a, b, keep);
    Seqs.FilterKeepsAll(keep, a);
    Seqs.FilterKeepsAll(keep, b);
  }

  lemma FilterTwoSlashes(a: string, b: string, c: string, keep: char -> bool)
    requires forall i :: 0 <= i < |a| ==> keep(a[i])
    requires forall i :: 0 <= i < |b| ==> keep(b[i])
    requires forall i :: 0 <= i < |c| ==> keep(c[i])
    requires !keep('/')
    ensures Seqs.Filter(keep, a + "/" + b + "/" + c) == a + b + c
  {
    FilterAcrossSlash(a + "/" + b, c, keep);
    FilterOneSlash(a, b, keep);
    Seqs.FilterKeepsAll(keep, c);
  }

  /** Deleting the slashes from the mask gives back the first `min(8, n)` digits
      of the input, in order. */
  lemma DateMaskDigits(input: string)
    ensures Seqs.Filter(NotSlash, DateMask(input)) == AtMostEight(DigitsOf(input))
  {
    var v := AtMostEight(DigitsOf(input));
    assert AllDigits(v);
    SlashedFilter(v, NotSlash);
  }

  /** Masking the mask's own output changes nothing. */
  lemma DateMaskIdempotent(input: string)
    ensures DateMask(DateMask(input)) == DateMask(input)
  {
    var v := AtMostEight(DigitsOf(input));
    assert AllDigits(v);
    SlashedFilter(v, IsDigit);
    assert DigitsOf(Slashed(v)) == v;
  }

  /** The callback `c => c[key] === value` of the two filters. */
  function HasValue(key: string, value: Field): JsonObject -> bool {
    c => Get(c, key) == value
  }

  /** `if (filtros[key]) consultas = consultas.filter(c => c[key] === filtros[key])`:
      an active filter keeps exactly the records holding its value, in order; an
      empty one keeps the list. */
  function FilterByField(consultas: seq<JsonObject>, key: string, filtro: Field): (r: seq<JsonObject>)
    ensures Truthy(filtro) ==> forall j :: 0 <= j < |r| ==> Get(r[j], key) == filtro && r[j] in consultas
    ensures Truthy(filtro) ==>
              forall j :: 0 <= j < |consultas| && Get(consultas[j], key) == filtro ==> consultas[j] in r
    ensures !Truthy(filtro) ==> r == consultas
  {
    if Truthy(filtro) then Seqs.Filter(HasValue(key, filtro), consultas) else consultas
  }

  /** Both filters of `carregarConsultas`, date first. */
  function ApplyFilters(consultas: seq<JsonObject>, filtros: JsonObject): seq<JsonObject> {
    var porData := FilterByField(consultas, "data", Get(filtros, "data"));
    FilterByField(porData, "profissionalId", Get(filtros, "profissionalId"))
  }

  /** Whether a record passes the active filters (an empty filter passes everything). */
  predicate Matches(c: JsonObject, filtros: JsonObject) {
    (Truthy(Get(filtros, "data")) ==> Get(c, "data") == Get(filtros, "data"))
    && (Truthy(Get(filtros, "profissionalId")) ==> Get(c, "profissionalId") == Get(filtros, "profissionalId"))
  }

  /** The filtered list is exactly the records matching every active filter, in
      their stored order: one pass of `filter` by the conjunction. */
  lemma ApplyFiltersIsOneFilter(consultas: seq<JsonObject>, filtros: JsonObject)
    ensures ApplyFilters(consultas, filtros) == Seqs.Filter(c => Matches(c, filtros), consultas)
  {
    var d, p := Get(filtros, "data"), Get(filtros, "profissionalId");
    var byData, byProf := HasValue("data", d), HasValue("profissionalId", p);
    var matches := (c: JsonObject) => Matches(c, filtros);
    if Truthy(d) && Truthy(p) {
      Seqs.FilterThenFilter(byData, byProf, matches, consultas);
    } else if Truthy(d) {
      Seqs.FilterAgree(byData, matches, consultas);
    } else if Truthy(p) {
      Seqs.FilterAgree(byProf, matches, consultas);
    } else {
      Seqs.FilterKeepsAll(matches, consultas);
    }
  }

  /** A record is listed exactly when it is stored and matches the filters. */
  lemma ApplyFiltersMembership(consultas: seq<JsonObject>, filtros: JsonObject, c: JsonObject)
    ensures c in ApplyFilters(consultas, filtros) <==> c in consultas && Matches(c, filtros)
  {
    ApplyFiltersIsOneFilter(consultas, filtros);
    var r := ApplyFilters(consultas, filtros);
    if c in r {
      var j :| 0 <= j < |r| && r[j] == c;
    }
    if c in consultas && Matches(c, filtros) {
      var j :| 0 <= j < |consultas| && consultas[j] == c;
    }
  }

  /** `s.split(sep)`: the pieces between separators, at least one. */
  function Split(s: string, sep: char): (r: seq<string>)
    ensures |r| >= 1
  {
    if s == [] then [""]
    else
      var rest := Split(s[1..], sep);
      if s[0] == sep then [""] + rest
      else [[s[0]] + rest[0]] + rest[1..]
  }

  /** `pieces.join(sep)`. */
  function Join(pieces: seq<string>, sep: char): string
    requires |pieces| >= 1
  {
    if |pieces| == 1 then pieces[0] else pieces[0] + [sep] + Join(pieces[1..], sep)
  }

  /** Joining the pieces of a split gives back the string. */
  lemma {:induction false} JoinSplit(s: string, sep: char)
    ensures Join(Split(s, sep), sep) == s
  {
    if s != [] {
      var rest := Split(s[1..], sep);
      JoinSplit(s[1..], sep);
      if s[0] == sep {
        assert Split(s, sep)[1..] == rest;
        assert s == [sep] + s[1..];
      } else {
        var r := Split(s, sep);
        if |rest| == 1 {
          assert r == [[s[0]] + rest[0]];
        } else {
          assert r[1..] == rest[1..];
          assert Join(r, sep) == [s[0]] + rest[0] + [sep] + Join(rest[1..], sep);
        }
        assert s == [s[0]] + s[1..];
      }
    }
  }

  /** A piece without the separator followed by the separator splits off whole. */
  lemma {:induction false} SplitPiece(a: string, t: string, sep: char)
    requires sep !in a
    ensures Split(a + [sep] + t, sep) == [a] + Split(t, sep)
  {
    if a == [] {
      assert [sep] + t == [sep] + t;
      assert ([sep] + t)[1..] == t;
    } else {
      assert (a + [sep] + t)[1..] == a[1..] + [sep] + t;
      SplitPiece(a[1..], t, sep);
      assert [a[0]] + a[1..] == a;
    }
  }

  /** A string without the separator splits into itself. */
  lemma {:induction false} SplitWhole(a: string, sep: char)
    requires sep !in a
    ensures Split(a, sep) == [a]
  {
    if a != [] {
      SplitWhole(a[1..], sep);
      assert [a[0]] + a[1..] == a;
    }
  }

  /** The i-th piece of a split, or `undefined` when there are fewer pieces. */
  function Piece(pieces: seq<string>, i: nat): Field {
    if i < |pieces| then Some(pieces[i]) else None
  }

  /** `const [ano, mes, dia] = data.split('-'); \`${dia}/${mes}/${ano}\``. */
  function DisplayDate(data: string): string {
    var pieces := Split(data, '-');
    Text(Piece(pieces, 2)) + "/" + Text(Piece(pieces, 1)) + "/" + Text(Piece(pieces, 0))
  }

  /** A stored `YYYY-MM-DD` date is shown as `DD/MM/YYYY`. */
  lemma DisplayDateReorders(ano: string, mes: string, dia: string)
    requires '-' !in ano && '-' !in mes && '-' !in dia
    ensures DisplayDate(ano + "-" + mes + "-" + dia) == dia + "/" + mes + "/" + ano
  {
    SplitWhole(dia, '-');
    SplitPiece(mes, dia, '-');
    assert mes + "-" + dia == mes + ['-'] + dia;
    SplitPiece(ano, mes + "-" + dia, '-');
    assert ano + "-" + mes + "-" + dia == ano + ['-'] + (mes + "-" + dia);
  }

  /** The mask writes `DD/MM/YYYY`, which has no '-': the row then shows two
      `undefined` pieces in front of the typed date. */
  lemma DisplayDateOfMaskedInput(input: string)
    ensures DisplayDate(DateMask(input)) == "undefined/undefined/" + DateMask(input)
  {
    DateMaskHasNoDash(input);
    DisplayDateWithoutDash(DateMask(input));
  }

  /** The mask never writes a '-'. */
  lemma DateMaskHasNoDash(input: string)
    ensures '-' !in DateMask(input)
  {
    DateMaskShape(input);
  }

  /** A date without '-' is one piece, shown after two `undefined` pieces. */
  lemma DisplayDateWithoutDash(data: string)
    requires '-' !in data
    ensures DisplayDate(data) == "undefined/undefined/" + data
  {
    SplitWhole(data, '-');
  }

  /** The row date as evidently intended: a `YYYY-MM-DD` date is reordered to
      `DD/MM/YYYY`, and a date already typed as `DD/MM/YYYY` is shown as it is. */
  function DisplayDateCorrected(data: string): string {
    var pieces := Split(data, '-');
    if |pieces| == 3 then pieces[2] + "/" + pieces[1] + "/" + pieces[0] else data
  }

  /** The corrected display shows a masked date unchanged and still reorders a
      `YYYY-MM-DD` date. */
  lemma DisplayDateCorrectedIsIntended(input: string, ano: string, mes: string, dia: string)
    requires '-' !in ano && '-' !in mes && '-' !in dia
    ensures DisplayDateCorrected(DateMask(input)) == DateMask(input)
    ensures DisplayDateCorrected(ano + "-" + mes + "-" + dia) == dia + "/" + mes + "/" + ano
  {
    DateMaskHasNoDash(input);
    SplitWhole(DateMask(input), '-');
    SplitWhole(dia, '-');
    SplitPiece(mes, dia, '-');
    assert mes + "-" + dia == mes + ['-'] + dia;
    SplitPiece(ano, mes + "-" + dia, '-');
    assert ano + "-" + mes + "-" + dia == ano + ['-'] + (mes + "-" + dia);
  }
}

/** Resolution of ion number-density fields inside `SpectrumGenerator.make_spectrum`: a field the
    dataset cannot resolve, and that is not already a derived field, is named by the convention
    `<element>_p<k>_number_density` (or `<element>_number_density`), and the ion-balance
    collaborator is asked to derive it for that element at ionization level `k + 1`. */
module IonFields {
  import opened Wrappers
  import opened Strings

  const NumberDensity := "number_density"

  /** An element symbol and an ionization level (1 for the neutral atom). */
  datatype IonLevel = IonLevel(element: string, level: int)

  /** The naming convention for a level-`level` ion field of `element`. */
  function IonFieldName(element: string, level: nat): string
    requires level >= 1
  {
    element + "_p" + NatToString(level - 1) + "_" + NumberDensity
  }

  /** The part of a parse after the `number_density` cut: `on_ion = my_ion.split("_")`, then the
      level from the second piece. A missing second piece is an IndexError and a second piece
      whose tail is not an integer a ValueError. */
  function ParseIonPrefix(myIon: string): (r: Result<IonLevel>)
    ensures r.Ok? ==> '_' !in r.value.element && Split(myIon, '_')[0] == r.value.element
    ensures |Split(myIon, '_')| < 2 <==> r == Err(IndexError)
    ensures var onIon := Split(myIon, '_');
            |onIon| >= 2 && onIon[1] != [] ==>
              (r.Err? <==> ParseInt(onIon[1][1..]).None?) &&
              (r.Err? ==> r.error.ValueError?) &&
              (r.Ok? ==> r.value.level == ParseInt(onIon[1][1..]).value + 1)
    ensures var onIon := Split(myIon, '_');
            |onIon| >= 2 && onIon[1] == [] ==> r == Ok(IonLevel(onIon[0], 1))
  {
    var onIon := Split(myIon, '_');
    if |onIon| < 2 then Err(IndexError)
    else if onIon[1] != [] then
      match ParseInt(onIon[1][1..])
      case None => Err(ValueError("invalid literal for int()"))
      case Some(v) => Ok(IonLevel(onIon[0], v + 1))
    else Ok(IonLevel(onIon[0], 1))
  }

  /** The parse as the source writes it: `field[:field.find("number_density")]`. When the
      substring is missing `find` gives -1 and the slice drops the last character. */
  function ParseIonFieldAsWritten(field: string): (r: Result<IonLevel>)
    ensures r.Ok? ==> '_' !in r.value.element
    ensures Find(field, NumberDensity) == -1 && |field| >= 1 ==>
              r == ParseIonPrefix(field[..|field| - 1])
  {
    var idx := Find(field, NumberDensity);
    var myIon := if idx == -1 then field[..if |field| == 0 then 0 else |field| - 1]
                 else field[..idx];
    ParseIonPrefix(myIon)
  }

  /** The parse with a field name that lacks `number_density` rejected. */
  function ParseIonField(field: string): (r: Result<IonLevel>)
    ensures r.Ok? ==> Find(field, NumberDensity) != -1
    ensures r.Ok? ==> '_' !in r.value.element
    ensures Find(field, NumberDensity) != -1 ==> r == ParseIonFieldAsWritten(field)
  {
    var idx := Find(field, NumberDensity);
    if idx == -1 then Err(ValueError("not a number-density field"))
    else ParseIonPrefix(field[..idx])
  }

  /** In `e + "_" + m + "number_density"` the first `number_density` is the final one, as long
      as `e` holds no `_`, `m` no `n`, and `m` does not start with `d`. */
  lemma FindNumberDensityAtEnd(e: string, m: string)
    requires '_' !in e && 'n' !in m && (m == [] || m[0] != 'd')
    ensures Find(e + "_" + m + NumberDensity, NumberDensity) == |e| + 1 + |m|
  {
    var s := e + "_" + m + NumberDensity;
    var p := |e| + 1 + |m|;
    assert s[p..p + |NumberDensity|] == NumberDensity;
    forall k | 0 <= k < p ensures !OccursAt(s, NumberDensity, k) {
      if k + |NumberDensity| <= |s| {
        // An index at which the window starting at k differs from the pattern.
        var j := if k >= |e| then 0 else if k + 6 < |e| then 6 else if k + 6 == |e| then 7
                 else |e| - k;
        assert s[k + j] != NumberDensity[j] by {
          if k >= |e| {
            assert k == |e| ==> s[k] == '_';
            assert k > |e| ==> s[k] == m[k - |e| - 1];
          } else if k + 6 < |e| {
            assert s[k + 6] == e[k + 6];
          } else if k + 6 == |e| {
            assert s[k + 7] == if m == [] then NumberDensity[0] else m[0];
          } else {
            assert s[|e|] == '_';
          }
        }
        assert s[k..k + |NumberDensity|][j] == s[k + j];
      }
    }
    assert OccursAt(s, NumberDensity, p);
  }

  /** Cutting such a name at `number_density` leaves `e + "_" + m`. */
  lemma ParseAtNumberDensity(e: string, m: string)
    requires '_' !in e && 'n' !in m && (m == [] || m[0] != 'd')
    ensures ParseIonField(e + "_" + m + NumberDensity) == ParseIonPrefix(e + "_" + m)
  {
    var s := e + "_" + m + NumberDensity;
    FindNumberDensityAtEnd(e, m);
    assert s[..|e| + 1 + |m|] == e + "_" + m;
  }

  /** A second piece `p<digits>` gives level `int(digits) + 1`. */
  lemma ParseIonPrefixOfPieces(myIon: string, e: string, digits: string)
    requires |digits| >= 1 && AllDigits(digits)
    requires |Split(myIon, '_')| >= 2
    requires Split(myIon, '_')[0] == e && Split(myIon, '_')[1] == "p" + digits
    ensures ParseIonPrefix(myIon) == Ok(IonLevel(e, DigitsValue(digits) + 1))
  {
    assert ("p" + digits)[1..] == digits;
    ParseIntOfDigits(digits);
  }

  lemma NoUnderscoreInIonState(digits: string)
    requires AllDigits(digits)
    ensures '_' !in "p" + digits
  {
    var state := "p" + digits;
    forall k | 0 <= k < |state| ensures state[k] != '_' {
      if k > 0 { assert state[k] == digits[k - 1] && IsDigit(digits[k - 1]); }
    }
  }

  /** `e_p<digits>_` is element `e` at level `int(digits) + 1`. */
  lemma ParseIonStatePrefix(e: string, digits: string)
    requires '_' !in e && |digits| >= 1 && AllDigits(digits)
    ensures ParseIonPrefix(e + "_" + ("p" + digits + "_"))
            == Ok(IonLevel(e, DigitsValue(digits) + 1))
  {
    var state := "p" + digits;
    NoUnderscoreInIonState(digits);
    SplitAtLastSeparator(state, '_');
    SplitFirst(e, state + "_", '_');
    ParseIonPrefixOfPieces(e + "_" + (state + "_"), e, digits);
  }

  /** `e_` is element `e` at level 1. */
  lemma ParseNeutralPrefix(e: string)
    requires '_' !in e
    ensures ParseIonPrefix(e + "_") == Ok(IonLevel(e, 1))
  {
    assert e + "_" == e + "_" + [];
    SplitFirst(e, [], '_');
  }

  /** Every name built by the convention parses back to its element and level. */
  lemma ParseIonFieldName(element: string, level: nat)
    requires level >= 1 && '_' !in element
    ensures ParseIonField(IonFieldName(element, level)) == Ok(IonLevel(element, level))
  {
    var digits := NatToString(level - 1);
    var m := "p" + digits + "_";
    assert 'n' !in m by {
      forall k | 0 <= k < |m| ensures m[k] != 'n' {
        if 0 < k <= |digits| { assert m[k] == digits[k - 1] && IsDigit(digits[k - 1]); }
      }
    }
    assert IonFieldName(element, level) == element + "_" + m + NumberDensity;
    ParseAtNumberDensity(element, m);
    ParseIonStatePrefix(element, digits);
    DigitsValueOfNatToString(level - 1);
  }

  /** A name with no ion-state piece, `<element>_number_density`, is level 1. */
  lemma ParseNeutralFieldName(element: string)
    requires '_' !in element
    ensures ParseIonField(element + "_" + NumberDensity) == Ok(IonLevel(element, 1))
  {
    ParseAtNumberDensity(element, []);
    assert element + "_" + [] + NumberDensity == element + "_" + NumberDensity;
    assert element + "_" + [] == element + "_";
    ParseNeutralPrefix(element);
  }

  /** Three pieces joined by underscores split back into those pieces. */
  lemma SplitThreePieces(a: string, b: string, c: string)
    requires '_' !in a && '_' !in b && '_' !in c
    ensures Split(a + "_" + b + "_" + c, '_') == [a, b, c]
  {
    assert Split(c, '_') == [c];
    SplitFirst(b, c, '_');
    SplitFirst(a, b + "_" + c, '_');
    assert a + "_" + b + "_" + c == a + "_" + (b + "_" + c);
  }

  /** Finding (as written): a field that is not a number density at all, `Si_p2_mass`, is cut to
      `Si_p2_mas` and read as silicon at level 3; the corrected parse rejects it. */
  lemma ParseAcceptsNonDensityAsWritten()
    ensures ParseIonFieldAsWritten("Si_p2_mass") == Ok(IonLevel("Si", 3))
    ensures ParseIonField("Si_p2_mass").Err?
  {
    var f := "Si_p2_mass";
    NoNumberDensityInSiliconMass(f);
    var myIon := f[..|f| - 1];
    assert myIon == "Si" + "_" + "p2" + "_" + "mas";
    SiliconMassPrefix(myIon, "Si", "p2", "mas");
  }

  lemma NoNumberDensityInSiliconMass(f: string)
    requires f == "Si_p2_mass"
    ensures Find(f, NumberDensity) == -1
  {
  }

  lemma SiliconMassPrefix(myIon: string, si: string, p2: string, mas: string)
    requires si == "Si" && p2 == "p2" && mas == "mas"
    requires myIon == si + "_" + p2 + "_" + mas
    ensures ParseIonPrefix(myIon) == Ok(IonLevel(si, 3))
  {
    assert '_' !in si && '_' !in p2 && '_' !in mas;
    SplitThreePieces(si, p2, mas);
    var two := "2";
    assert p2 == "p" + two;
    assert DigitsValue(two) == 2 by {
      assert two[..0] == [];
    }
    ParseIonPrefixOfPieces(myIon, si, two);
  }

  /** The requests of the corrected loop: each field the dataset cannot resolve and that is not
      already derived is parsed and requested; a parse error aborts the whole resolution. The
      collaborator adds the requested field to the dataset, so later lines with the same field
      find it resolvable. */
  function IonRequests(fields: seq<string>, resolvable: set<string>, derived: set<string>)
    : (r: Result<seq<IonLevel>>)
    ensures r.Ok? ==> |r.value| <= |fields|
    ensures fields != [] && NeedsDerivation(fields[0], resolvable, derived) && ParseIonField(fields[0]).Err? ==>
              r == Err(ParseIonField(fields[0]).error)
  {
    if fields == [] then Ok([])
    else
      var f := fields[0];
      if !NeedsDerivation(f, resolvable, derived) then IonRequests(fields[1..], resolvable, derived)
      else match ParseIonField(f)
        case Err(e) => Err(e)
        case Ok(q) => Prepend([q], IonRequests(fields[1..], resolvable + {f}, derived))
  }

  /** The field needs deriving: the dataset cannot resolve it and it is not a derived field. */
  predicate NeedsDerivation(f: string, resolvable: set<string>, derived: set<string>) {
    f !in resolvable && f !in derived
  }

  /** The corrected resolution succeeds exactly when every field needing derivation parses, and
      then requests exactly the parsed ion of each such field, in order. */
  lemma {:induction false} IonRequestsCorrect(fields: seq<string>, resolvable: set<string>,
                                              derived: set<string>)
    ensures var r := IonRequests(fields, resolvable, derived);
      r.Ok? <==> (forall k :: 0 <= k < |fields| ==>
                     NeedsDerivation(fields[k], resolvable, derived) ==> ParseIonField(fields[k]).Ok?)
    ensures var r := IonRequests(fields, resolvable, derived);
      r.Ok? ==> forall q :: q in r.value <==>
                  exists k :: 0 <= k < |fields| && NeedsDerivation(fields[k], resolvable, derived)
                              && ParseIonField(fields[k]) == Ok(q)
  {
    if fields != [] {
      var f := fields[0];
      var tail := fields[1..];
      forall k | 1 <= k < |fields| ensures fields[k] == tail[k - 1] { }
      if !NeedsDerivation(f, resolvable, derived) {
        IonRequestsCorrect(tail, resolvable, derived);
        var r := IonRequests(fields, resolvable, derived);
        if r.Ok? {
          forall q | exists k :: 0 <= k < |fields| && NeedsDerivation(fields[k], resolvable, derived)
                                && ParseIonField(fields[k]) == Ok(q)
            ensures q in r.value
          {
            var k :| 0 <= k < |fields| && NeedsDerivation(fields[k], resolvable, derived)
                     && ParseIonField(fields[k]) == Ok(q);
            assert tail[k - 1] == fields[k];
          }
        }
      } else if ParseIonField(f).Ok? {
        var seen := resolvable + {f};
        var q0 := ParseIonField(f).value;
        IonRequestsCorrect(tail, seen, derived);
        var r := IonRequests(fields, resolvable, derived);
        var rest := IonRequests(tail, seen, derived);
        assert r == Prepend([q0], rest);
        // Away from `f`, needing derivation is the same before and after `f` is requested.
        forall k | 0 <= k < |tail| && tail[k] != f
          ensures NeedsDerivation(tail[k], seen, derived) == NeedsDerivation(tail[k], resolvable, derived)
        { }
        if r.Ok? {
          forall q | q in r.value
            ensures exists k :: 0 <= k < |fields| && NeedsDerivation(fields[k], resolvable, derived)
                                && ParseIonField(fields[k]) == Ok(q)
          {
            if q == q0 {
              assert NeedsDerivation(fields[0], resolvable, derived) && ParseIonField(fields[0]) == Ok(q);
            } else {
              assert q in rest.value;
              var k' :| 0 <= k' < |tail| && NeedsDerivation(tail[k'], seen, derived)
                        && ParseIonField(tail[k']) == Ok(q);
              assert fields[k' + 1] == tail[k'];
            }
          }
          forall q | exists k :: 0 <= k < |fields| && NeedsDerivation(fields[k], resolvable, derived)
                                && ParseIonField(fields[k]) == Ok(q)
            ensures q in r.value
          {
            var k :| 0 <= k < |fields| && NeedsDerivation(fields[k], resolvable, derived)
                     && ParseIonField(fields[k]) == Ok(q);
            if fields[k] == f {
              assert q == q0;
            } else {
              assert tail[k - 1] == fields[k];
              assert NeedsDerivation(tail[k - 1], seen, derived);
            }
          }
        } else {
          assert rest.Err?;
          var k' :| 0 <= k' < |tail| && NeedsDerivation(tail[k'], seen, derived) && ParseIonField(tail[k']).Err?;
          assert fields[k' + 1] == tail[k'];
        }
      }
    }
  }

  /** The distinct fields among `fields` that need derivation. */
  function FieldsToDerive(fields: seq<string>, resolvable: set<string>, derived: set<string>): set<string> {
    set x | x in fields && NeedsDerivation(x, resolvable, derived)
  }

  /** No field is requested twice: the corrected resolution sends one request per distinct field
      that needs derivation, however many lines share that field. */
  lemma {:induction false} IonRequestsOncePerField(fields: seq<string>, resolvable: set<string>,
                                                   derived: set<string>)
    ensures var r := IonRequests(fields, resolvable, derived);
      r.Ok? ==> |r.value| == |FieldsToDerive(fields, resolvable, derived)|
  {
    if fields != [] {
      var f := fields[0];
      var tail := fields[1..];
      assert fields == [f] + tail;
      if !NeedsDerivation(f, resolvable, derived) {
        IonRequestsOncePerField(tail, resolvable, derived);
        assert FieldsToDerive(fields, resolvable, derived) == FieldsToDerive(tail, resolvable, derived);
      } else if ParseIonField(f).Ok? {
        var seen := resolvable + {f};
        IonRequestsOncePerField(tail, seen, derived);
        var later := FieldsToDerive(tail, seen, derived);
        assert f !in later;
        assert FieldsToDerive(fields, resolvable, derived) == {f} + later;
      }
    }
  }

  /** Two lines of one ion, such as the magnesium II doublet, share the field `mg`: it is requested
      once. */
  lemma SharedFieldRequestedOnce(mg: string)
    requires mg == "Mg_p1_number_density"
    ensures IonRequests([mg, mg], {}, {}) == Ok([IonLevel("Mg", 2)])
  {
    ParseMagnesiumII(mg);
    assert [mg, mg] == [mg] + [mg];
    assert [mg] == [mg] + [];
    IonRequestsStep(mg, [], {mg}, {});
    IonRequestsStep(mg, [mg], {}, {});
    assert [IonLevel("Mg", 2)] + [] == [IonLevel("Mg", 2)];
  }

  /** The loop as the source writes it: `on_ion` and `my_lev` are only assigned when the field is
      not a derived field, but the request is made whenever the field cannot be resolved, so a
      derived field re-requests the previous field's ion (`last`) or, if there was none, fails on
      an unbound local. A parsed field becomes resolvable once requested; a re-request adds the
      previous field again and leaves the derived field unresolvable. */
  function IonRequestsAsWritten(fields: seq<string>, resolvable: set<string>,
                                derived: set<string>, last: Option<IonLevel>)
    : (r: Result<seq<IonLevel>>)
    ensures r.Ok? ==> |r.value| <= |fields|
    ensures last.None? && fields != [] && fields[0] !in resolvable && fields[0] in derived ==>
              r == Err(UnboundLocalError)
    ensures last.Some? && fields != [] && fields[0] !in resolvable && fields[0] in derived && r.Ok? ==>
              |r.value| >= 1 && r.value[0] == last.value
  {
    if fields == [] then Ok([])
    else
      var f := fields[0];
      if f in resolvable then IonRequestsAsWritten(fields[1..], resolvable, derived, last)
      else
        var cur := if f in derived then (if last.Some? then Ok(last.value) else Err(UnboundLocalError))
                   else ParseIonFieldAsWritten(f);
        if cur.Err? then Err(cur.error)
        else
          var seen := if f in derived then resolvable else resolvable + {f};
          Prepend([cur.value], IonRequestsAsWritten(fields[1..], seen, derived, Some(cur.value)))
  }

  /** One step of `IonRequestsAsWritten` at a derived field the dataset cannot resolve: the
      previous ion, if any, is requested again. */
  lemma AsWrittenDerivedStep(f: string, rest: seq<string>, resolvable: set<string>,
                             derived: set<string>, last: Option<IonLevel>)
    requires f !in resolvable && f in derived
    ensures IonRequestsAsWritten([f] + rest, resolvable, derived, last)
            == if last.None? then Err(UnboundLocalError)
               else Prepend([last.value], IonRequestsAsWritten(rest, resolvable, derived, last))
  {
    assert ([f] + rest)[1..] == rest;
  }

  /** One step of `IonRequestsAsWritten` at a field that is parsed and parses. */
  lemma AsWrittenParsedStep(f: string, rest: seq<string>, resolvable: set<string>,
                            derived: set<string>, last: Option<IonLevel>, q: IonLevel)
    requires NeedsDerivation(f, resolvable, derived) && ParseIonFieldAsWritten(f) == Ok(q)
    ensures IonRequestsAsWritten([f] + rest, resolvable, derived, last)
            == Prepend([q], IonRequestsAsWritten(rest, resolvable + {f}, derived, Some(q)))
  {
    assert ([f] + rest)[1..] == rest;
  }

  /** Finding (as written): a derived field `o` that the dataset cannot resolve, met first, makes
      the source read `on_ion` before any assignment; the corrected resolution requests nothing. */
  lemma UnboundIonRequestAsWritten(o: string)
    requires o == "O_p5_number_density"
    ensures IonRequestsAsWritten([o], {}, {o}, None) == Err(UnboundLocalError)
    ensures IonRequests([o], {}, {o}) == Ok([])
  {
    assert [o] == [o] + [];
    AsWrittenDerivedStep(o, [], {}, {o}, None);
    IonRequestsStep(o, [], {}, {o});
  }

  /** Finding (as written): after `mg`, naming magnesium II, such a derived field `o` makes the
      source request magnesium II a second time; the corrected resolution requests it once. */
  lemma StaleIonRequestAsWritten(mg: string, o: string)
    requires mg == "Mg_p1_number_density" && o == "O_p5_number_density"
    ensures IonRequestsAsWritten([mg, o], {}, {o}, None) == Ok([IonLevel("Mg", 2), IonLevel("Mg", 2)])
    ensures IonRequests([mg, o], {}, {o}) == Ok([IonLevel("Mg", 2)])
  {
    var mgII := IonLevel("Mg", 2);
    ParseMagnesiumII(mg);
    assert mg != o by { assert mg[0] != o[0]; }
    assert [mg, o] == [mg] + [o];
    assert [o] == [o] + [];
    AsWrittenDerivedStep(o, [], {mg}, {o}, Some(mgII));
    assert IonRequestsAsWritten([], {mg}, {o}, Some(mgII)) == Ok([]);
    assert [mgII] + [] == [mgII];
    var tailAsWritten := IonRequestsAsWritten([o], {mg}, {o}, Some(mgII));
    assert tailAsWritten == Ok([mgII]);
    AsWrittenParsedStep(mg, [o], {}, {o}, None, mgII);
    assert [mgII] + [mgII] == [mgII, mgII];
    IonRequestsStep(o, [], {mg}, {o});
    var tail := IonRequests([o], {mg}, {o});
    assert tail == Ok([]);
    IonRequestsStep(mg, [o], {}, {o});
  }

  lemma ParseMagnesiumII(mg: string)
    requires mg == "Mg_p1_number_density"
    ensures ParseIonField(mg) == Ok(IonLevel("Mg", 2))
    ensures ParseIonFieldAsWritten(mg) == Ok(IonLevel("Mg", 2))
  {
    assert NatToString(1) == "1";
    assert IonFieldName("Mg", 2) == mg;
    ParseIonFieldName("Mg", 2);
  }

  /** One step of `IonRequests`, stated for the loop below. */
  lemma IonRequestsStep(f: string, rest: seq<string>, resolvable: set<string>, derived: set<string>)
    ensures var r := IonRequests([f] + rest, resolvable, derived);
            r == if !NeedsDerivation(f, resolvable, derived) then IonRequests(rest, resolvable, derived)
                 else if ParseIonField(f).Err? then Err(ParseIonField(f).error)
                 else Prepend([ParseIonField(f).value], IonRequests(rest, resolvable + {f}, derived))
  {
    assert ([f] + rest)[1..] == rest;
  }

  /** `acc` followed by the outcome of the remaining fields. */
  function Prepend(acc: seq<IonLevel>, rest: Result<seq<IonLevel>>): Result<seq<IonLevel>> {
    if rest.Err? then rest else Ok(acc + rest.value)
  }

  lemma PrependTwice(acc: seq<IonLevel>, q: IonLevel, rest: Result<seq<IonLevel>>)
    ensures Prepend(acc, Prepend([q], rest)) == Prepend(acc + [q], rest)
  {
    if rest.Ok? {
      assert acc + ([q] + rest.value) == acc + [q] + rest.value;
    }
  }

  /** `make_spectrum`'s field-resolution loop, corrected: returns the ion requests it sends to the
      ion-balance collaborator, in order, or the error of the first field that fails to parse. */
  method ResolveIonFields(fields: seq<string>, resolvable: set<string>, derived: set<string>)
    returns (r: Result<seq<IonLevel>>)
    ensures r == IonRequests(fields, resolvable, derived)
  {
    var requests: seq<IonLevel> := [];
    var seen := resolvable;
    var i := 0;
    assert fields[i..] == fields;
    assert Prepend([], IonRequests(fields, resolvable, derived)) == IonRequests(fields, resolvable, derived) by {
      var x := IonRequests(fields, resolvable, derived);
      if x.Ok? { assert [] + x.value == x.value; }
    }
    while i < |fields|
      invariant 0 <= i <= |fields|
      invariant IonRequests(fields, resolvable, derived)
                == Prepend(requests, IonRequests(fields[i..], seen, derived))
    {
      var f := fields[i];
      assert fields[i..] == [f] + fields[i + 1..];
      IonRequestsStep(f, fields[i + 1..], seen, derived);
      if NeedsDerivation(f, seen, derived) {
        var parsed := ParseIonField(f);
        if parsed.Err? {
          return Err(parsed.error);
        }
        PrependTwice(requests, parsed.value, IonRequests(fields[i + 1..], seen + {f}, derived));
        requests := requests + [parsed.value];
        seen := seen + {f};
      }
      i := i + 1;
    }
    assert fields[i..] == [] && requests + [] == requests;
    r := Ok(requests);
  }
}

/**
 * Read-only views of one section of the loaded configuration, with the
 * required / default / missing-option rules of the three getters (string,
 * boolean and comma-separated list), and the properties every Python
 * package section has (`name`, `fullName`, `copyright`, `installRequires`).
 */
module Config {
  import opened Wrappers
  import opened Text
  import opened Exceptions

  /** The loaded configuration: (section, option) to the option's raw text. */
  type Store = map<(string, string), string>

  /** What reading the configuration can raise. */
  datatype ConfigError =
    | MissingOption(missing: NoOptionError)
      /** `getboolean` on a value that is not a boolean word */
    | NotABoolean(value: string)
      /** a `languageVersions` entry that is neither `X(.Y(.Z))` nor `universal` */
    | BadLanguageVersion(version: string)
  {
    function Message(): string
    {
      match this
      case MissingOption(e) => e.Message()
      case NotABoolean(v) => "Not a boolean: " + v
      case BadLanguageVersion(v) =>
        "Unexpected value in languageVersions: " + v + ". Expected X(.Y.Z) format "
        + "(for example, '2', '2.7', or '2.7.9') or 'universal'."
    }
  }

  function Missing(key: string, section: string): ConfigError
  {
    MissingOption(NoOptionError(key, section))
  }

  /** One named section of the store. */
  datatype Section = Section(store: Store, name: string)
  {
    predicate Has(key: string)
    {
      (name, key) in store
    }

    function Get(key: string): string
      requires Has(key)
    {
      store[(name, key)]
    }
  }

  // ---------------------------------------------------------------------
  // _get_property

  /**
   * `_get_property(key, default, required)`: the stored text when the option
   * is present; otherwise NoOptionError(key, section) when required (even
   * when a default is given); otherwise the default (None when there is none).
   */
  function GetProperty(sec: Section, key: string, default: Option<string>, required: bool)
    : Result<Option<string>, ConfigError>
  {
    if sec.Has(key) then Ok(Some(sec.Get(key)))
    else if required then Err(Missing(key, sec.name))
    else Ok(default)
  }

  /** `_get_property(key, required=True)`, unwrapped. */
  function RequiredProperty(sec: Section, key: string): Result<string, ConfigError>
  {
    var v :- GetProperty(sec, key, None, true);
    if v.Some? then Ok(v.value) else Err(Missing(key, sec.name))
  }

  /**
   * A present option gives its text whatever the flags; an absent one gives
   * NoOptionError(key, section) when required, even with a default, and
   * the default otherwise. The required getter fails exactly when the
   * option is absent.
   */
  lemma PropertyRules(sec: Section, key: string, default: Option<string>, required: bool)
    ensures sec.Has(key) ==> GetProperty(sec, key, default, required) == Ok(Some(sec.Get(key)))
    ensures !sec.Has(key) && required ==> GetProperty(sec, key, default, required) == Err(Missing(key, sec.name))
    ensures !sec.Has(key) && !required ==> GetProperty(sec, key, default, required) == Ok(default)
    ensures RequiredProperty(sec, key).Ok? <==> sec.Has(key)
    ensures sec.Has(key) ==> RequiredProperty(sec, key).value == sec.Get(key)
    ensures !sec.Has(key) ==> RequiredProperty(sec, key) == Err(Missing(key, sec.name))
  {
  }

  // ---------------------------------------------------------------------
  // _get_boolean_property

  /** ConfigParser's boolean words, compared case-insensitively. */
  function ParseBoolean(v: string): Option<bool>
  {
    var w := Lower(v);
    if w == "1" || w == "yes" || w == "true" || w == "on" then Some(true)
    else if w == "0" || w == "no" || w == "false" || w == "off" then Some(false)
    else None
  }

  function GetBooleanProperty(sec: Section, key: string, default: Option<bool>, required: bool)
    : Result<Option<bool>, ConfigError>
  {
    if sec.Has(key) then
      match ParseBoolean(sec.Get(key))
      case Some(b) => Ok(Some(b))
      case None => Err(NotABoolean(sec.Get(key)))
    else if required then Err(Missing(key, sec.name))
    else Ok(default)
  }

  /**
   * The boolean getter follows the string getter's present / required /
   * default rules: it fails for a missing option exactly when the string
   * getter does, returns the default exactly when the string getter does,
   * and otherwise parses the very text the string getter returns.
   */
  lemma BooleanFollowsString(sec: Section, key: string, default: bool, required: bool)
    ensures var s := GetProperty(sec, key, None, required);
            var b := GetBooleanProperty(sec, key, Some(default), required);
            && (s.Err? <==> b.Err? && b.error.MissingOption?)
            && (s == Ok(None) <==> b == Ok(Some(default)) && !sec.Has(key))
            && (s.Ok? && s.value.Some? ==>
                  b == (match ParseBoolean(s.value.value)
                        case Some(x) => Ok(Some(x))
                        case None => Err(NotABoolean(s.value.value))))
  {
  }

  // ---------------------------------------------------------------------
  // _get_list_property: csv.reader(quotechar="'") over the text, each item
  // stripped, empty items dropped

  /** The states of the csv reader (quote character `'`, no escape character). */
  datatype CsvState = StartField | InField | InQuotedField | QuoteInQuotedField

  predicate IsSeparator(c: char)
  {
    c == ',' || c == '\n'
  }

  /**
   * The csv reader's fields, rows run together (a line break outside quotes
   * ends a field just as a comma does). A quote opens a quoted field only
   * as the first character of a field; inside one, a doubled quote stands
   * for a quote and separators are kept.
   */
  function Scan(s: string, st: CsvState, field: string, fields: seq<string>): seq<string>
    decreases |s|
  {
    if s == [] then fields + [field]
    else
      var c := s[0];
      match st
      case StartField =>
        if c == '\'' then Scan(s[1..], InQuotedField, field, fields)
        else if IsSeparator(c) then Scan(s[1..], StartField, "", fields + [field])
        else Scan(s[1..], InField, field + [c], fields)
      case InField =>
        if IsSeparator(c) then Scan(s[1..], StartField, "", fields + [field])
        else Scan(s[1..], InField, field + [c], fields)
      case InQuotedField =>
        if c == '\'' then Scan(s[1..], QuoteInQuotedField, field, fields)
        else Scan(s[1..], InQuotedField, field + [c], fields)
      case QuoteInQuotedField =>
        if c == '\'' then Scan(s[1..], InQuotedField, field + [c], fields)
        else if IsSeparator(c) then Scan(s[1..], StartField, "", fields + [field])
        else Scan(s[1..], InField, field + [c], fields)
  }

  function CsvFields(s: string): seq<string>
  {
    Scan(s, StartField, "", [])
  }

  /** The stripped, non-empty fields, in order. */
  function KeptItems(fields: seq<string>): seq<string>
  {
    if fields == [] then []
    else
      var item := Strip(fields[|fields| - 1]);
      KeptItems(fields[..|fields| - 1]) + (if item == "" then [] else [item])
  }

  function ListItems(raw: string): seq<string>
  {
    KeptItems(CsvFields(raw))
  }

  /**
   * `_get_list_property(key, default, required)`: the items of the stored
   * text; when there are none, the default if one is given (it wins over
   * `required`), else NoOptionError(key, section) if required, else [].
   */
  function ListProperty(sec: Section, key: string, default: Option<seq<string>>, required: bool)
    : Result<seq<string>, ConfigError>
  {
    var items := if sec.Has(key) then ListItems(sec.Get(key)) else [];
    if items != [] then Ok(items)
    else if default.Some? then Ok(default.value)
    else if required then Err(Missing(key, sec.name))
    else Ok([])
  }

  /**
   * A list property fails only when it yields no item, has no default and
   * is required, and then names the key and the section; a default makes
   * it succeed whatever `required` says; every item it reads from the
   * configuration is non-empty and stripped.
   */
  lemma ListPropertyRules(sec: Section, key: string, default: Option<seq<string>>, required: bool)
    ensures var r := ListProperty(sec, key, default, required);
            var items := if sec.Has(key) then ListItems(sec.Get(key)) else [];
            && (r.Err? <==> items == [] && default.None? && required)
            && (r.Err? ==> r.error == Missing(key, sec.name))
            && (items == [] && default.Some? ==> r == Ok(default.value))
            && (items == [] && default.None? && !required ==> r == Ok([]))
            && (items != [] ==> r.Ok? && forall k :: 0 <= k < |r.value| ==> r.value[k] != "" && IsTrimmed(r.value[k]))
  {
    if sec.Has(key) {
      KeptItemsClean(CsvFields(sec.Get(key)));
    }
  }

  /** The getter as the source writes it: a loop appending the kept items. */
  method GetListProperty(sec: Section, key: string, default: Option<seq<string>>, required: bool)
    returns (r: Result<seq<string>, ConfigError>)
    ensures r == ListProperty(sec, key, default, required)
  {
    var listItems: seq<string> := [];
    var listStr := GetProperty(sec, key, None, false);
    if listStr.value.Some? {
      var fields := CsvFields(listStr.value.value);
      var i := 0;
      while i < |fields|
        invariant 0 <= i <= |fields|
        invariant listItems == KeptItems(fields[..i])
      {
        var item := Strip(fields[i]);
        if item != "" {
          listItems := listItems + [item];
        }
        assert fields[..i + 1][..i] == fields[..i];
        i := i + 1;
      }
      assert fields[..|fields|] == fields;
    }
    if listItems == [] {
      if default.Some? {
        listItems := default.value;
      } else if required {
        return Err(Missing(key, sec.name));
      }
    }
    return Ok(listItems);
  }

  /** Every item a list property yields is non-empty and carries no surrounding whitespace. */
  lemma {:induction false} KeptItemsClean(fields: seq<string>)
    ensures forall k :: 0 <= k < |KeptItems(fields)| ==>
              KeptItems(fields)[k] != "" && IsTrimmed(KeptItems(fields)[k])
  {
    if fields != [] {
      KeptItemsClean(fields[..|fields| - 1]);
      StripTrimmed(fields[|fields| - 1]);
    }
  }

  lemma {:induction false} KeptItemsOfClean(items: seq<string>)
    requires forall k :: 0 <= k < |items| ==> items[k] != "" && IsTrimmed(items[k])
    ensures KeptItems(items) == items
  {
    if items != [] {
      KeptItemsOfClean(items[..|items| - 1]);
      StripTrimmed(items[|items| - 1]);
      assert items[..|items| - 1] + [items[|items| - 1]] == items;
    }
  }

  /** Plain text (no separator) extends the field being read. */
  lemma {:induction false} ScanPlain(a: string, rest: string, field: string, fields: seq<string>)
    requires forall k :: 0 <= k < |a| ==> !IsSeparator(a[k])
    ensures Scan(a + rest, InField, field, fields) == Scan(rest, InField, field + a, fields)
  {
    if a != [] {
      assert (a + rest)[0] == a[0];
      assert (a + rest)[1..] == a[1..] + rest;
      ScanPlain(a[1..], rest, field + [a[0]], fields);
      assert field + [a[0]] + a[1..] == field + a;
    } else {
      assert a + rest == rest;
      assert field + a == field;
    }
  }

  /** Text without a quote, inside a quoted field, is kept verbatim. */
  lemma {:induction false} ScanQuoted(a: string, rest: string, field: string, fields: seq<string>)
    requires '\'' !in a
    ensures Scan(a + rest, InQuotedField, field, fields) == Scan(rest, InQuotedField, field + a, fields)
  {
    if a != [] {
      assert (a + rest)[0] == a[0];
      assert (a + rest)[1..] == a[1..] + rest;
      ScanQuoted(a[1..], rest, field + [a[0]], fields);
      assert field + [a[0]] + a[1..] == field + a;
    } else {
      assert a + rest == rest;
      assert field + a == field;
    }
  }

  /** A plain item: not empty, no separator, no surrounding space, no leading quote. */
  predicate PlainItem(x: string)
  {
    UnquotedField(x) && IsTrimmed(x)
  }

  /** A quotable item: not empty, no quote, no surrounding space (commas allowed). */
  predicate QuotableItem(x: string)
  {
    x != [] && '\'' !in x && IsTrimmed(x)
  }

  function Quote(x: string): string
  {
    "'" + x + "'"
  }

  function QuoteAll(xs: seq<string>): seq<string>
  {
    if xs == [] then [] else [Quote(xs[0])] + QuoteAll(xs[1..])
  }

  lemma {:induction false} ScanPlainItems(items: seq<string>, fields: seq<string>)
    requires |items| >= 1
    requires forall k :: 0 <= k < |items| ==> PlainItem(items[k])
    ensures Scan(Join(items, ","), StartField, "", fields) == fields + items
  {
    var x := items[0];
    if |items| == 1 {
      assert Join(items, ",") == x + "";
      ScanUnquotedField(x, "", fields);
    } else {
      ScanPlainItems(items[1..], fields + [x]);
      ScanPlainStep(items, fields);
    }
  }

  /** The step of `ScanPlainItems`: the first item is read, then the rest from after its comma. */
  lemma ScanPlainStep(items: seq<string>, fields: seq<string>)
    requires |items| >= 2 && PlainItem(items[0])
    requires Scan(Join(items[1..], ","), StartField, "", fields + [items[0]]) == fields + [items[0]] + items[1..]
    ensures Scan(Join(items, ","), StartField, "", fields) == fields + items
  {
    var x := items[0];
    var rest := "," + Join(items[1..], ",");
    assert Join(items, ",") == x + rest;
    ScanUnquotedField(x, rest, fields);
    assert rest[1..] == Join(items[1..], ",");
    assert fields + [x] + items[1..] == fields + items;
  }

  lemma {:induction false} ScanQuotedItems(items: seq<string>, fields: seq<string>)
    requires |items| >= 1
    requires forall k :: 0 <= k < |items| ==> QuotableItem(items[k])
    ensures Scan(Join(QuoteAll(items), ","), StartField, "", fields) == fields + items
  {
    var x := items[0];
    var q := QuoteAll(items);
    assert q[0] == Quote(x) && q[1..] == QuoteAll(items[1..]);
    var rest := if |items| == 1 then "" else "," + Join(QuoteAll(items[1..]), ",");
    assert |QuoteAll(items[1..])| == |items| - 1 by { QuoteAllLength(items[1..]); }
    assert Join(q, ",") == "'" + (x + ("'" + rest));
    ScanQuoted(x, "'" + rest, "", fields);
    assert "" + x == x;
    if |items| > 1 {
      assert rest[1..] == Join(QuoteAll(items[1..]), ",");
      ScanQuotedItems(items[1..], fields + [x]);
      assert fields + [x] + items[1..] == fields + items;
    }
  }

  lemma QuoteAllLength(xs: seq<string>)
    ensures |QuoteAll(xs)| == |xs|
  {
  }

  /** Plain items joined with commas read back as the same list. */
  lemma {:induction false} PlainListRoundTrip(items: seq<string>)
    requires forall k :: 0 <= k < |items| ==> PlainItem(items[k])
    ensures ListItems(Join(items, ",")) == items
  {
    if items != [] {
      ScanPlainItems(items, []);
      assert [] + items == items;
      KeptItemsOfClean(items);
    }
  }

  /** Quoted items may hold commas and line breaks: they read back unchanged. */
  lemma {:induction false} QuotedListRoundTrip(items: seq<string>)
    requires forall k :: 0 <= k < |items| ==> QuotableItem(items[k])
    ensures ListItems(Join(QuoteAll(items), ",")) == items
  {
    if items != [] {
      ScanQuotedItems(items, []);
      assert [] + items == items;
      KeptItemsOfClean(items);
    }
  }

  /** An unquoted field: read up to the next separator, as written. */
  lemma ScanUnquotedField(x: string, rest: string, fields: seq<string>)
    requires UnquotedField(x)
    requires rest == [] || rest[0] == ','
    ensures Scan(x + rest, StartField, "", fields)
            == if rest == [] then fields + [x] else Scan(rest[1..], StartField, "", fields + [x])
  {
    assert (x + rest)[0] == x[0];
    assert (x + rest)[1..] == x[1..] + rest;
    assert "" + [x[0]] == [x[0]];
    ScanPlain(x[1..], rest, [x[0]], fields);
    assert [x[0]] + x[1..] == x;
  }

  /** A quoted field without inner quotes: its text, quotes removed. */
  lemma ScanQuotedField(x: string, rest: string, fields: seq<string>)
    requires '\'' !in x
    requires rest == [] || rest[0] == ','
    ensures Scan(Quote(x) + rest, StartField, "", fields)
            == if rest == [] then fields + [x] else Scan(rest[1..], StartField, "", fields + [x])
  {
    assert Quote(x) + rest == "'" + (x + ("'" + rest));
    ScanQuoted(x, "'" + rest, "", fields);
    assert "" + x == x;
  }

  /**
   * The quote is honoured only at the very start of a field: after ", " it
   * is ordinary text, so `a, 'b,c', d` gives four items, the quotes kept.
   */
  lemma QuoteAfterSpaceIsText(a: string, b: string, c: string, d: string)
    requires PlainItem(a) && PlainItem(b) && PlainItem(c) && PlainItem(d)
    ensures ListItems(a + ", '" + b + "," + c + "', " + d) == [a, "'" + b, c + "'", d]
  {
    var x, y, z := " '" + b, c + "'", " " + d;
    assert a + ", '" + b + "," + c + "', " + d == a + ("," + x + ("," + y + ("," + z))) by {
      assert x + ("," + y + ("," + z)) == " '" + b + "," + c + "', " + d;
    }
    SpacedPieces(b, c, d);
    assert Strip(a) == a by { StripTrimmed(a); }
    SpacedFields(a, x, y, z);
    KeptStripped([a, x, y, z], [a, "'" + b, y, d]);
  }

  /** The three fields after the first in `a, 'b,c', d`, and what `strip` makes of them. */
  lemma SpacedPieces(b: string, c: string, d: string)
    requires PlainItem(b) && PlainItem(c) && PlainItem(d)
    ensures UnquotedField(" '" + b) && UnquotedField(c + "'") && UnquotedField(" " + d)
    ensures Strip(" '" + b) == "'" + b && Strip(c + "'") == c + "'" && Strip(" " + d) == d
  {
    var qb := "'" + b;
    assert qb != [] && IsTrimmed(qb) && forall k :: 0 <= k < |qb| ==> !IsSeparator(qb[k]) by {
      assert forall k :: 1 <= k < |qb| ==> qb[k] == b[k - 1];
      assert qb[|qb| - 1] == b[|b| - 1];
    }
    SpacedField(qb);
    assert " " + qb == " '" + b;
    SpacedField(d);
    QuoteEndField(c);
  }

  /** A space, then a trimmed word without separators: one field, the space stripped. */
  lemma SpacedField(w: string)
    requires w != [] && IsTrimmed(w) && forall k :: 0 <= k < |w| ==> !IsSeparator(w[k])
    ensures UnquotedField(" " + w) && Strip(" " + w) == w
  {
    var x := " " + w;
    assert UnquotedField(x) by {
      assert forall k :: 1 <= k < |x| ==> x[k] == w[k - 1];
    }
    StripLeadingSpace(x, w);
  }

  /** A plain word with a quote after it: one field that `strip` leaves alone. */
  lemma QuoteEndField(c: string)
    requires PlainItem(c)
    ensures UnquotedField(c + "'") && Strip(c + "'") == c + "'"
  {
    var y := c + "'";
    assert forall k :: 0 <= k < |c| ==> y[k] == c[k];
    assert IsTrimmed(y) by { assert y[0] == c[0]; }
    StripTrimmed(y);
  }

  /** Four unquoted fields separated by commas read back as written. */
  lemma SpacedFields(w: string, x: string, y: string, z: string)
    requires UnquotedField(w) && UnquotedField(x) && UnquotedField(y) && UnquotedField(z)
    ensures CsvFields(w + ("," + x + ("," + y + ("," + z)))) == [w, x, y, z]
  {
    var r3 := "," + z;
    var r2 := "," + y + r3;
    var r1 := "," + x + r2;
    ScanUnquotedField(w, r1, []);
    assert [] + [w] == [w];
    assert r1[1..] == x + r2;
    ScanUnquotedField(x, r2, [w]);
    assert [w] + [x] == [w, x];
    assert r2[1..] == y + r3;
    ScanUnquotedField(y, r3, [w, x]);
    assert [w, x] + [y] == [w, x, y];
    assert r3[1..] == z + [];
    ScanUnquotedField(z, [], [w, x, y]);
    assert [w, x, y] + [z] == [w, x, y, z];
  }

  /** Text the reader takes as one unquoted field. */
  predicate UnquotedField(x: string)
  {
    x != [] && x[0] != '\'' && forall k :: 0 <= k < |x| ==> !IsSeparator(x[k])
  }

  /** Fields whose stripped texts are the given non-empty items keep exactly those items. */
  lemma {:induction false} KeptStripped(fields: seq<string>, items: seq<string>)
    requires |fields| == |items|
    requires forall k :: 0 <= k < |fields| ==> Strip(fields[k]) == items[k] && items[k] != ""
    ensures KeptItems(fields) == items
  {
    if fields != [] {
      var n := |fields| - 1;
      KeptStripped(fields[..n], items[..n]);
      assert items[..n] + [items[n]] == items;
    }
  }

  /** One leading space in front of a trimmed word is stripped. */
  lemma StripLeadingSpace(x: string, y: string)
    requires x == " " + y && y != [] && IsTrimmed(y)
    ensures Strip(x) == y
  {
    assert x[1..] == y;
    StripTrimmed(y);
  }

  // ---------------------------------------------------------------------
  // PythonPackageConfigSection

  function Name(sec: Section): Result<string, ConfigError>
  {
    RequiredProperty(sec, "name")
  }

  function FullName(sec: Section): Result<string, ConfigError>
  {
    RequiredProperty(sec, "fullName")
  }

  /** `copyright`: optional, "" when absent. */
  function Copyright(sec: Section): (r: string)
    ensures sec.Has("copyright") ==> r == sec.Get("copyright")
    ensures !sec.Has("copyright") ==> r == ""
  {
    GetProperty(sec, "copyright", Some(""), false).value.value
  }

  /**
   * `install_requires`: the declared `installRequires` items (none when the
   * option is absent or empty), followed by the section's implicit
   * dependencies.
   */
  function InstallRequires(sec: Section, implicit: seq<string>): (r: seq<string>)
    ensures r == (if sec.Has("installRequires") then ListItems(sec.Get("installRequires")) else []) + implicit
  {
    ListProperty(sec, "installRequires", Some([]), false).value + implicit
  }
}

/** Typed reading of a plot-options map, as the configuration classes do it.
    `show` renders a non-string option value as its text. */
module OptionsAccessor {
  import opened Common

  type Options = map<string, Value>

  predicate Has(opts: Options, name: string) {
    name in opts && opts[name] != JNull
  }

  function Get(opts: Options, name: string): Value {
    if name in opts then opts[name] else JNull
  }

  function Text(v: Value, show: Value -> string): string {
    if v.JStr? then v.s else show(v)
  }

  /** A required option as a string: a missing option is an error. */
  function GetStringSafe(opts: Options, name: string, show: Value -> string): (r: Result<string>)
    ensures r.Err? <==> !Has(opts, name)
    ensures r.Ok? && opts[name].JStr? ==> r.value == opts[name].s
  {
    if Has(opts, name) then Ok(Text(opts[name], show))
    else Err(IllegalArgument("Option '" + name + "' not found."))
  }

  /** One name or a list of names; nulls in the list are skipped. */
  function GetAsStringList(opts: Options, name: string, show: Value -> string): (r: seq<string>)
    ensures !Has(opts, name) ==> r == []
    ensures Has(opts, name) && !opts[name].JList? ==> r == [Text(opts[name], show)]
    ensures Has(opts, name) && opts[name].JList? ==>
      forall x :: x in r <==> exists v :: v in opts[name].items && v != JNull && Text(v, show) == x
  {
    if !Has(opts, name) then []
    else if opts[name].JList? then NonNullTexts(opts[name].items, show)
    else [Text(opts[name], show)]
  }

  /** The texts of the non-null items, in order. */
  function NonNullTexts(items: seq<Value>, show: Value -> string): (r: seq<string>)
    ensures |r| <= |items|
    ensures forall x :: x in r <==> exists v :: v in items && v != JNull && Text(v, show) == x
  {
    if |items| == 0 then []
    else
      assert items == items[..|items| - 1] + [items[|items| - 1]];
      var init := NonNullTexts(items[..|items| - 1], show);
      var last := items[|items| - 1];
      if last == JNull then init else init + [Text(last, show)]
  }

  /** The texts keep the items' order: those of a concatenation are the texts
      of each part, one after the other. */
  lemma {:induction false} NonNullTextsAppend(a: seq<Value>, b: seq<Value>, show: Value -> string)
    ensures NonNullTexts(a + b, show) == NonNullTexts(a, show) + NonNullTexts(b, show)
  {
    if |b| == 0 {
      assert a + b == a;
    } else {
      var init := b[..|b| - 1];
      NonNullTextsAppend(a, init, show);
      assert (a + b)[..|a + b| - 1] == a + init;
      assert (a + b)[|a + b| - 1] == b[|b| - 1];
    }
  }

  /** An optional integer option: absent is `None`, a number is truncated. */
  function GetInteger(opts: Options, name: string): (r: Result<Option<int>>)
    ensures r == Ok(None) <==> !Has(opts, name)
    ensures r.Err? <==> Has(opts, name) && !opts[name].JNum?
    ensures r.Ok? && r.value.Some? ==> r.value.value == Trunc(opts[name].n)
  {
    if !Has(opts, name) then Ok(None)
    else if opts[name].JNum? then Ok(Some(Trunc(opts[name].n)))
    else Err(IllegalArgument("Option '" + name + "' expected a number."))
  }

  /** A boolean option; anything but a boolean reads as false. */
  function GetBoolean(opts: Options, name: string): (r: bool)
    ensures r <==> name in opts && opts[name] == JBool(true)
  {
    name in opts && opts[name].JBool? && opts[name].b
  }

  /** An optional number option; a non-number is an error. */
  function GetDouble(opts: Options, name: string): (r: Result<Option<real>>)
    ensures r == Ok(None) <==> !Has(opts, name)
    ensures r.Err? <==> Has(opts, name) && !opts[name].JNum?
    ensures r.Ok? && r.value.Some? ==> r.value.value == opts[name].n
  {
    if !Has(opts, name) then Ok(None)
    else if opts[name].JNum? then Ok(Some(opts[name].n))
    else Err(IllegalArgument("Option '" + name + "' expected a number."))
  }

  /** An optional option as text. */
  function GetString(opts: Options, name: string, show: Value -> string): (r: Option<string>)
    ensures r.None? <==> !Has(opts, name)
  {
    if Has(opts, name) then Some(Text(opts[name], show)) else None
  }
}

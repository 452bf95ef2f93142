/**
 * Translation lookup (`i18nContext.tsx`): `get` walks a dot-separated path
 * through the loaded translation tree, and `t` falls back to the key itself,
 * returns non-strings and `returnObjects` lookups raw, and otherwise replaces
 * each `{name}` placeholder of the supplied variables, one variable at a time.
 */
module I18n {
  import opened Text

  /** The JSON values a translation file holds. */
  datatype Json = JNull | JBool(b: bool) | JNumber(n: int) | JString(s: string)
                | JArray(items: seq<Json>) | JObject(fields: map<string, Json>)

  /** The running value of `get`'s `reduce`: `undefined` or a JSON value. */
  datatype Lookup = Undefined | Found(value: Json)

  /** One step of the `reduce`: `undefined` and `null` give `undefined`; an object gives its field, if any. */
  function Step(o: Lookup, segment: string): (r: Lookup)
    ensures o.Undefined? ==> r.Undefined?
    ensures o.Found? && o.value.JNull? ==> r.Undefined?
    ensures r.Found? ==> o.Found? && o.value.JObject? && segment in o.value.fields && r.value == o.value.fields[segment]
  {
    if o.Undefined? then Undefined
    else match o.value
      case JObject(fields) => if segment in fields then Found(fields[segment]) else Undefined
      case _ => Undefined
  }

  /** The walk along a dot-separated path: one step per segment, from the left. */
  function Walk(o: Lookup, segments: seq<string>): Lookup
    decreases |segments|
  {
    if segments == [] then o else Walk(Step(o, segments[0]), segments[1..])
  }

  /** Once the walk is lost, it stays lost. */
  lemma {:induction false} WalkFromUndefined(segments: seq<string>)
    ensures Walk(Undefined, segments) == Undefined
    decreases |segments|
  {
    if segments != [] {
      WalkFromUndefined(segments[1..]);
    }
  }

  /** Walking a path in two pieces is walking the whole path. */
  lemma {:induction false} WalkAppend(o: Lookup, p: seq<string>, q: seq<string>)
    ensures Walk(o, p + q) == Walk(Walk(o, p), q)
    decreases |p|
  {
    if p == [] {
      assert p + q == q;
    } else {
      assert (p + q)[0] == p[0] && (p + q)[1..] == p[1..] + q;
      WalkAppend(Step(o, p[0]), p[1..], q);
    }
  }

  /** A missing or `null` value part-way along the path gives `undefined` at the end. */
  lemma MissingPartGivesUndefined(o: Lookup, p: seq<string>, q: seq<string>)
    requires Walk(o, p).Undefined? || (Walk(o, p).Found? && Walk(o, p).value.JNull? && q != [])
    ensures Walk(o, p + q) == Undefined
  {
    WalkAppend(o, p, q);
    if Walk(o, p).Undefined? {
      WalkFromUndefined(q);
    } else {
      WalkFromUndefined(q[1..]);
    }
  }

  /** `get(obj, path, fallback)`: the value found, even `null`, or the fallback when the walk ends at `undefined`. */
  function Get(obj: Json, path: string, fallback: Json): (r: Json)
    ensures Walk(Found(obj), Split(path, '.')).Found? ==> r == Walk(Found(obj), Split(path, '.')).value
    ensures Walk(Found(obj), Split(path, '.')).Undefined? ==> r == fallback
  {
    var v := Walk(Found(obj), Split(path, '.'));
    if v.Found? then v.value else fallback
  }

  /** The placeholder a variable fills: its name in braces. */
  function Placeholder(name: string): (r: string)
    ensures |r| == |name| + 2 && r[0] == '{'
  {
    "{" + name + "}"
  }

  /**
   * The interpolation: the variables, in key order, each replacing every
   * occurrence of its placeholder in the text the previous ones left.
   */
  function Interpolate(text: string, vars: seq<(string, string)>): string
    decreases |vars|
  {
    if vars == [] then text
    else
      var last := vars[|vars| - 1];
      ReplaceAll(Interpolate(text, vars[..|vars| - 1]), Placeholder(last.0), last.1)
  }

  /** A text without any `{` is left unchanged by every interpolation. */
  lemma {:induction false} NoPlaceholdersUnchanged(text: string, vars: seq<(string, string)>)
    requires '{' !in text
    ensures Interpolate(text, vars) == text
    decreases |vars|
  {
    if vars != [] {
      var last := vars[|vars| - 1];
      NoPlaceholdersUnchanged(text, vars[..|vars| - 1]);
      FirstCharAbsent(text, Placeholder(last.0));
      ReplaceAbsent(text, Placeholder(last.0), last.1);
    }
  }

  /**
   * One variable fills in every one of its placeholders: a text made of pieces
   * without `{`, joined by the placeholder, reads as the pieces joined by the value.
   */
  lemma InterpolateFillsEveryPlaceholder(pieces: seq<string>, name: string, value: string)
    requires forall i :: 0 <= i < |pieces| ==> '{' !in pieces[i]
    ensures Interpolate(Join(pieces, Placeholder(name)), [(name, value)]) == Join(pieces, value)
  {
    var vars := [(name, value)];
    assert vars[..0] == [];
    ReplaceJoined(pieces, Placeholder(name), value);
  }

  /**
   * What `t(key, vars)` answers: the key itself unless the language is loaded
   * and the path is found; the value as is for `returnObjects` or a
   * non-string; otherwise the string with the variables interpolated.
   */
  function Translate(translations: map<string, Json>, language: string, key: string,
                     vars: seq<(string, string)>, returnObjects: bool): Json
  {
    var value := if language in translations then Get(translations[language], key, JString(key)) else JString(key);
    if returnObjects || !value.JString? then value
    else JString(Interpolate(value.s, vars))
  }

  /** `t`, with the interpolation loop of `forEach` and `replace`. */
  method T(translations: map<string, Json>, language: string, key: string,
           vars: seq<(string, string)>, returnObjects: bool) returns (r: Json)
    ensures r == Translate(translations, language, key, vars, returnObjects)
  {
    var value := if language in translations then Get(translations[language], key, JString(key)) else JString(key);
    if returnObjects || !value.JString? {
      return value;
    }
    var text := value.s;
    var i := 0;
    while i < |vars|
      invariant 0 <= i <= |vars|
      invariant text == Interpolate(value.s, vars[..i])
    {
      assert vars[..i + 1][..i] == vars[..i];
      text := ReplaceAll(text, Placeholder(vars[i].0), vars[i].1);
      i := i + 1;
    }
    assert vars[..|vars|] == vars;
    return JString(text);
  }

  /** With the language not loaded, or the path missing, `t` gives back the key (one without placeholders). */
  lemma KeyIsTheFallback(translations: map<string, Json>, language: string, key: string,
                         vars: seq<(string, string)>)
    requires '{' !in key
    requires language !in translations || Walk(Found(translations[language]), Split(key, '.')).Undefined?
    ensures Translate(translations, language, key, vars, false) == JString(key)
  {
    NoPlaceholdersUnchanged(key, vars);
  }

  /** A found value that is not a string is returned as it is, whatever the variables. */
  lemma NonStringReturnedAsIs(translations: map<string, Json>, language: string, key: string,
                              vars: seq<(string, string)>, returnObjects: bool)
    requires language in translations
    requires Walk(Found(translations[language]), Split(key, '.')).Found?
    requires !Walk(Found(translations[language]), Split(key, '.')).value.JString?
    ensures Translate(translations, language, key, vars, returnObjects)
         == Walk(Found(translations[language]), Split(key, '.')).value
  {
  }

  /** With `returnObjects` the looked-up value comes back without interpolation. */
  lemma ReturnObjectsIsRaw(translations: map<string, Json>, language: string, key: string,
                           vars: seq<(string, string)>)
    requires language in translations
    ensures Translate(translations, language, key, vars, true) == Get(translations[language], key, JString(key))
  {
  }

  /** `{count}` filled in. */
  lemma CountFilledIn()
    ensures Interpolate("{count} posts", [("count", "3")]) == "3 posts"
  {
    var vars := [("count", "3")];
    assert vars[..0] == [];
    var s := "{count} posts";
    var pat := Placeholder("count");
    assert s[..|pat|] == pat;
    var rest := s[|pat|..];
    assert rest == " posts";
    assert ReplaceAll(rest, pat, "3") == rest by {
      assert |rest| < |pat|;
    }
  }
}

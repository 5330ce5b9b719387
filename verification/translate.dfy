// Translation of visualisation labels: a label is a plain string or a
// record from locale to text, read with a fixed fallback chain.
module Translate {
  import opened Wrappers
  import opened OrderedMaps

  /** A label: a plain string, or a Translatable record from locale to text. */
  datatype Label = Plain(s: string) | Texts(t: OMap<string>)

  const MissingTranslation := "[missing translation]"

  /** The locales tried in turn: the requested one, then "nl", then "en". */
  function Fallbacks(locale: string): seq<string> {
    [locale, "nl", "en"]
  }

  /** The text under the first key the record defines, if any. */
  function FirstDefined(t: OMap<string>, keys: seq<string>): (r: Option<string>)
    ensures r.None? <==> forall i :: 0 <= i < |keys| ==> Get(t, keys[i]).None?
  {
    if keys == [] then None
    else if Get(t, keys[0]).Some? then Get(t, keys[0])
    else FirstDefined(t, keys[1..])
  }

  /** A defined result is the text of some key all of whose predecessors are missing. */
  lemma {:induction false} FirstDefinedWitness(t: OMap<string>, keys: seq<string>) returns (i: nat)
    requires FirstDefined(t, keys).Some?
    ensures i < |keys| && Get(t, keys[i]) == FirstDefined(t, keys)
    ensures forall j :: 0 <= j < i ==> Get(t, keys[j]).None?
  {
    if Get(t, keys[0]).Some? {
      i := 0;
    } else {
      var k := FirstDefinedWitness(t, keys[1..]);
      i := k + 1;
      assert forall j :: 1 <= j < i ==> keys[j] == keys[1..][j - 1];
    }
  }

  /** translate: a string label as it is; otherwise the first text defined
      along the fallback chain (?? only skips missing entries), or the
      missing-translation marker. */
  function Translate(lbl: Label, locale: string): (r: string)
    ensures lbl.Plain? ==> r == lbl.s
    ensures lbl.Texts? && Get(lbl.t, locale).Some? ==> r == Get(lbl.t, locale).value
  {
    match lbl
    case Plain(s) => s
    case Texts(t) => FirstDefined(t, Fallbacks(locale)).GetOr(MissingTranslation)
  }

  /** The text of a record label: the locale's if defined, else Dutch, else
      English, else the marker. */
  lemma TranslateSpec(t: OMap<string>, locale: string)
    ensures Get(t, locale).None? && Get(t, "nl").Some? ==> Translate(Texts(t), locale) == Get(t, "nl").value
    ensures Get(t, locale).None? && Get(t, "nl").None? && Get(t, "en").Some? ==> Translate(Texts(t), locale) == Get(t, "en").value
    ensures Get(t, locale).None? && Get(t, "nl").None? && Get(t, "en").None? ==> Translate(Texts(t), locale) == MissingTranslation
  {
    var ks := Fallbacks(locale);
    assert ks[1..] == ["nl", "en"] && ks[1..][1..] == ["en"];
    if Get(t, locale).None? {
      assert FirstDefined(t, ks) == FirstDefined(t, ["nl", "en"]);
      if Get(t, "nl").None? {
        assert FirstDefined(t, ["nl", "en"]) == FirstDefined(t, ["en"]);
      }
    }
  }

  /** An empty text is returned as it is, not replaced by a fallback. */
  lemma EmptyTranslationKept(t: OMap<string>, locale: string)
    requires Get(t, locale) == Some("")
    ensures Translate(Texts(t), locale) == ""
  {
  }

  /** getTranslations: every key of the record, in order, mapped through translate. */
  method GetTranslations(labels: OMap<Label>, locale: string) returns (translated: OMap<string>)
    requires UniqueKeys(labels)
    ensures Keys(translated) == Keys(labels)
    ensures forall i :: 0 <= i < |labels| ==> translated[i].1 == Translate(labels[i].1, locale)
  {
    translated := [];
    for i := 0 to |labels|
      invariant |translated| == i
      invariant forall k :: 0 <= k < i ==> translated[k].0 == labels[k].0
      invariant forall k :: 0 <= k < i ==> translated[k].1 == Translate(labels[k].1, locale)
    {
      translated := StoreTranslation(labels, translated, locale, i);
    }
    SameKeys(translated, labels);
  }

  /** Two records with the same key at every position have the same keys. */
  lemma SameKeys<V, W>(a: OMap<V>, b: OMap<W>)
    requires |a| == |b| && forall k :: 0 <= k < |a| ==> a[k].0 == b[k].0
    ensures Keys(a) == Keys(b)
  {
    assert |Keys(a)| == |Keys(b)|;
  }

  /** translated[key] = translate(value, locale) for the i-th entry: the key
      is new, so the entry is appended. */
  method StoreTranslation(labels: OMap<Label>, translated: OMap<string>, locale: string, i: nat) returns (next: OMap<string>)
    requires UniqueKeys(labels) && i < |labels| && |translated| == i
    requires forall k :: 0 <= k < i ==> translated[k].0 == labels[k].0
    ensures next == translated + [(labels[i].0, Translate(labels[i].1, locale))]
  {
    var key, value := labels[i].0, labels[i].1;
    KeyNotInPrefix(labels, translated, i);
    PutFresh(translated, key, Translate(value, locale));
    next := Put(translated, key, Translate(value, locale));
  }

  /** With distinct keys, the i-th key is not among the first i. */
  lemma KeyNotInPrefix<V, W>(labels: OMap<V>, out: OMap<W>, i: nat)
    requires UniqueKeys(labels) && i < |labels| && |out| == i
    requires forall k :: 0 <= k < i ==> out[k].0 == labels[k].0
    ensures labels[i].0 !in Keys(out)
  {
    forall k | 0 <= k < i ensures Keys(out)[k] != labels[i].0 {
      assert labels[k].0 != labels[i].0;
    }
  }

  /** Looking a key up in the translations translates its label. */
  lemma GetTranslationsLookup(labels: OMap<Label>, translated: OMap<string>, locale: string, key: string)
    requires Keys(translated) == Keys(labels)
    requires forall i :: 0 <= i < |labels| ==> translated[i].1 == Translate(labels[i].1, locale)
    ensures Get(labels, key).None? ==> Get(translated, key).None?
    ensures Get(labels, key).Some? ==> Get(translated, key) == Some(Translate(Get(labels, key).value, locale))
    decreases |labels|
  {
    if labels != [] {
      assert Keys(labels) == [labels[0].0] + Keys(labels[1..]);
      assert Keys(translated) == [translated[0].0] + Keys(translated[1..]);
      GetTranslationsLookup(labels[1..], translated[1..], locale, key);
    }
  }
}

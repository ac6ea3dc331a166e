/** party/meta_codec.go: between metadata strings and the values the patch builder edits. */
module MetaCodec {
  import opened GoStrings
  import opened Json

  type Meta = map<string, Text>

  /** Reading a Go map: a missing key reads as the empty string. */
  function Get(meta: Meta, key: string): Text {
    if key in meta then meta[key] else EMPTY
  }

  /** decodeJSONMap: anything but a JSON object reads as the empty object. */
  function DecodeJsonMap(raw: Text): Fields {
    match raw
    case Canonical(Obj(fields)) => fields
    case Respelled(Obj(fields), _) => fields
    case _ => map[]
  }

  /**
   asJSONMap, and decodeJSONMapValue without its string case: null, scalars and arrays do not
   unmarshal into a map.
   */
  function AsJsonMap(value: Option<Tree>): Fields {
    match value
    case Some(Obj(fields)) => fields
    case Some(Atom(Str(s))) => DecodeJsonMap(s)
    case _ => map[]
  }

  /** decodeJSONMapValue: a nested string is marshalled with quotes first, so it never reads as an object. */
  function DecodeJsonMapValue(src: Fields, key: string): Fields {
    if key in src && src[key].Obj? then src[key].fields else map[]
  }

  function SerializeMetaValue(key: string, value: Tree): Text {
    if HasSuffix(key, "_j") then
      if value.Atom? && value.scalar.Str? then value.scalar.s else Marshal(value)
    else if HasSuffix(key, "_b") && value.Atom? && value.scalar.Bool? then
      Plain(if value.scalar.b then "true" else "false")
    else if value.Atom? && value.scalar.Str? then value.scalar.s
    else Sprint(value)
  }

  predicate Folds(raw: Text, word: string) {
    raw.Plain? && EqualFold(TrimSpace(raw.chars), word)
  }

  function DecodeMetaValue(key: string, raw: Text): Tree {
    if HasSuffix(key, "_j") then
      var parsed := DecodeJsonMap(raw);
      if |parsed| > 0 then Obj(parsed)
      else if Blank(raw) then Obj(map[])
      else Atom(Str(raw))
    else if HasSuffix(key, "_b") && Folds(raw, "true") then Atom(Bool(true))
    else if HasSuffix(key, "_b") && Folds(raw, "false") then Atom(Bool(false))
    else if HasSuffix(key, "_U") && raw.Plain? && ParseInt64(TrimSpace(raw.chars)).Some? then
      FromInt(ParseInt64(TrimSpace(raw.chars)).value)
    else Atom(Str(raw))
  }

  function DecodeMetaSchema(schema: Meta): Fields {
    map key | key in schema :: DecodeMetaValue(key, schema[key])
  }

  function BuildMetaPatch(updates: Fields): Meta {
    map key | key in updates :: SerializeMetaValue(key, updates[key])
  }

  function NormalizeMetaMap(meta: Fields): Meta {
    map key | key in meta :: if meta[key].Atom? && meta[key].scalar.Str? then meta[key].scalar.s else Marshal(meta[key])
  }

  // ---- canonicalisation ----

  /** What one trip through the builder's value form does to a stored string. */
  function Canonicalize(key: string, raw: Text): Text {
    SerializeMetaValue(key, DecodeMetaValue(key, raw))
  }

  lemma BoolWordsFold(b: bool)
    ensures Folds(Plain("true"), "true") && Folds(Plain("false"), "false")
    ensures !Folds(Plain("false"), "true")
  {
    TrimmedIsFixed("true");
    TrimmedIsFixed("false");
  }

  lemma OneSuffix(key: string)
    ensures !(HasSuffix(key, "_b") && HasSuffix(key, "_U"))
  {
    assert "_b"[1] != "_U"[1];
  }

  /** Canonicalisation is a normal form, for every key and every string. */
  lemma CanonicalizeIdempotent(key: string, raw: Text)
    ensures Canonicalize(key, Canonicalize(key, raw)) == Canonicalize(key, raw)
  {
    hide HasSuffix, TrimSpace, ParseInt64, Print, Folds, Trimmed;
    BoolWordsFold(true);
    OneSuffix(key);
    if HasSuffix(key, "_U") && raw.Plain? {
      var n := ParseInt64(TrimSpace(raw.chars));
      if n.Some? {
        PrintParse(n.value);
        TrimmedIsFixed(Print(n.value));
      }
    }
  }

  /**
   The value form survives canonicalisation, except in one case: a blank object-valued
   string is read as an empty object, written as `{}`, and that is then read as a string.
   */
  lemma CanonicalizeKeepsValue(key: string, raw: Text)
    ensures DecodeMetaValue(key, Canonicalize(key, raw)) == DecodeMetaValue(key, raw)
        <==> !(HasSuffix(key, "_j") && Blank(raw))
  {
    hide HasSuffix, TrimSpace, ParseInt64, Print, Folds, Trimmed;
    CanonicalizeIdempotent(key, raw);
    BoolWordsFold(true);
    OneSuffix(key);
    if HasSuffix(key, "_U") && raw.Plain? {
      var n := ParseInt64(TrimSpace(raw.chars));
      if n.Some? {
        PrintParse(n.value);
        TrimmedIsFixed(Print(n.value));
      }
    }
  }

  /** Writing an edited object under a `_j` key and reading it back gives that object, when it has a field. */
  lemma ObjectRoundTrip(key: string, fields: Fields)
    requires HasSuffix(key, "_j") && fields != map[]
    ensures SerializeMetaValue(key, Obj(fields)) == Canonical(Obj(fields))
    ensures DecodeMetaValue(key, SerializeMetaValue(key, Obj(fields))) == Obj(fields)
  {
    assert |fields| > 0;
  }

  // ---- what is read under which suffix ----

  /**
   Under `_j` a JSON object is read as that object, unless it is empty, and anything else as the
   string it is, unless that is blank.
   */
  lemma ReadsObjects(key: string, fields: Fields, variant: nat, other: Text)
    requires HasSuffix(key, "_j")
    ensures fields != map[] ==>
      DecodeMetaValue(key, Canonical(Obj(fields))) == Obj(fields)
          == DecodeMetaValue(key, Respelled(Obj(fields), variant))
    ensures other.Plain? && !Blank(other) ==> DecodeMetaValue(key, other) == Atom(Str(other))
    ensures other.Plain? && Blank(other) ==> DecodeMetaValue(key, other) == Obj(map[])
  {
    hide HasSuffix, TrimSpace;
  }

  /**
   Under `_b` the two words are read as truth values in any case and with white space around
   them, and are written in lower case.
   */
  lemma ReadsTruth(key: string, left: string, word: string, right: string)
    requires HasSuffix(key, "_b") && (forall c | c in left + right :: IsSpace(c))
      && (forall c | c in word :: c < '\U{80}')
    ensures ToLower(word) == "true" ==>
      Canonicalize(key, Plain(left + word + right)) == Plain("true")
      && DecodeMetaValue(key, Plain(left + word + right)) == Atom(Bool(true))
    ensures ToLower(word) == "false" ==>
      Canonicalize(key, Plain(left + word + right)) == Plain("false")
      && DecodeMetaValue(key, Plain(left + word + right)) == Atom(Bool(false))
    ensures ToLower(word) !in {"true", "false"} && Trimmed(word) ==>
      DecodeMetaValue(key, Plain(left + word + right)) == Atom(Str(Plain(left + word + right)))
  {
    hide TrimSpace, HasSuffix;
    OtherSuffix(key);
    if ToLower(word) in {"true", "false"} { WordIsTrimmed(word); }
    if Trimmed(word) {
      TrimSpaceOf(left, word, right);
      FoldIsLower(word, "true");
      FoldIsLower(word, "false");
    }
    assert |"true"| == 4 && |"false"| == 5;
  }

  lemma OtherSuffix(key: string)
    ensures HasSuffix(key, "_b") || HasSuffix(key, "_U") ==> !HasSuffix(key, "_j")
    ensures !(HasSuffix(key, "_b") && HasSuffix(key, "_U"))
  {
    assert "_b"[1] != "_j"[1] && "_U"[1] != "_j"[1] && "_b"[1] != "_U"[1];
  }

  lemma WordIsTrimmed(word: string)
    requires ToLower(word) in {"true", "false"}
    ensures Trimmed(word)
  {
    assert |word| == |ToLower(word)| > 0;
    assert LowerChar(word[0]) == ToLower(word)[0] && LowerChar(word[|word| - 1]) == ToLower(word)[|word| - 1];
  }

  lemma FoldIsLower(s: string, word: string)
    requires (forall c | c in s :: c < '\U{80}') && (forall c | c in word :: 'a' <= c <= 'z')
    ensures EqualFold(s, word) <==> ToLower(s) == word
  {
    if EqualFold(s, word) {
      forall i | 0 <= i < |s|
        ensures ToLower(s)[i] == word[i]
      {
        assert s[i] in s && word[i] in word;
      }
    }
    if ToLower(s) == word {
      forall i | 0 <= i < |s|
        ensures FoldCase(s[i]) == FoldCase(word[i])
      {
        assert s[i] in s && word[i] in word && ToLower(s)[i] == word[i];
      }
    }
  }

  /**
   Under `_U` a 64-bit integer is read as a number and written in its shortest form, and anything
   else is the string it is.
   */
  lemma ReadsNumbers(key: string, left: string, n: int, right: string)
    requires HasSuffix(key, "_U") && (forall c | c in left + right :: IsSpace(c)) && INT64_MIN <= n <= INT64_MAX
    ensures DecodeMetaValue(key, Plain(left + Print(n) + right)) == FromInt(n)
    ensures Canonicalize(key, Plain(left + Print(n) + right)) == Plain(Print(n))
  {
    hide TrimSpace, HasSuffix, ParseInt64, Print, Trimmed;
    OtherSuffix(key);
    PrintParse(n);
    TrimSpaceOf(left, Print(n), right);
  }

  /** Under any other key, a metadata value is the string it is. */
  lemma ReadsStrings(key: string, raw: Text)
    requires !HasSuffix(key, "_j") && !HasSuffix(key, "_b") && !HasSuffix(key, "_U")
    ensures DecodeMetaValue(key, raw) == Atom(Str(raw)) && Canonicalize(key, raw) == raw
  {
    hide HasSuffix;
  }
}

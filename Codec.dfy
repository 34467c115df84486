/**
 * The codec and descriptor of autogoal_remote/distributed/remote_algorithm.py.
 *
 * Serialized payloads travel as text: the bytes an object serializer produces
 * are turned into a string with the ISO/IEC 8859-1 (Latin-1) mapping, which
 * sends byte b to the code point U+00b. The serializers themselves (pickle and
 * dill) are opaque: each is a pair of functions that may raise.
 */
module Codec {
  import opened Wrappers

  newtype byte = x: int | 0 <= x < 256

  /** `data.decode("latin1")` */
  function Decode(data: seq<byte>): (s: string)
    ensures |s| == |data|
    ensures forall i :: 0 <= i < |data| ==> s[i] as int == data[i] as int
  {
    seq(|data|, i requires 0 <= i < |data| => (data[i] as int) as char)
  }

  /** A character has a Latin-1 encoding iff its code point is below 256. */
  predicate IsLatin1(s: string)
  {
    forall i :: 0 <= i < |s| ==> s[i] as int < 256
  }

  /** Index of the first character at or after `from` that has no Latin-1
      encoding, or |s| if there is none. */
  function FirstNonLatin1(s: string, from: nat): (k: nat)
    requires from <= |s|
    ensures from <= k <= |s|
    ensures forall i :: from <= i < k ==> s[i] as int < 256
    ensures k < |s| ==> s[k] as int >= 256
    decreases |s| - from
  {
    if from == |s| || s[from] as int >= 256 then from else FirstNonLatin1(s, from + 1)
  }

  /** `UnicodeEncodeError`, reporting where the first unencodable character is. */
  datatype EncodeError = UnicodeEncodeError(position: nat)

  /** `code.encode("latin1")`: it succeeds iff every character is below U+0100,
      and then byte i is the code point of character i; otherwise it reports the
      first character that is not. */
  function Encode(code: string): (r: Result<seq<byte>, EncodeError>)
    ensures r.Success? <==> IsLatin1(code)
    ensures r.Success? ==>
      |r.value| == |code| && forall i :: 0 <= i < |code| ==> r.value[i] as int == code[i] as int
    ensures r.Failure? ==>
      var p := r.error.position;
      && p < |code| && code[p] as int >= 256
      && forall i :: 0 <= i < p ==> code[i] as int < 256
  {
    var k := FirstNonLatin1(code, 0);
    if k == |code| then
      Success(seq(|code|, i requires 0 <= i < |code| && code[i] as int < 256 => (code[i] as int) as byte))
    else Failure(UnicodeEncodeError(k))
  }

  /** Every byte string survives the text layer: Latin-1 is a bijection between
      bytes and U+0000..U+00FF. */
  lemma EncodeDecode(data: seq<byte>)
    ensures Encode(Decode(data)) == Success(data)
  {
    var s := Decode(data);
    assert IsLatin1(s);
    var b := Encode(s).value;
    assert b == data by {
      forall i | 0 <= i < |data| ensures b[i] == data[i] {
        assert b[i] as int == s[i] as int == data[i] as int;
      }
    }
  }

  /** A string is recovered from its encoding exactly when it has one. */
  lemma DecodeEncode(s: string)
    ensures Encode(s).Success? <==> IsLatin1(s)
    ensures IsLatin1(s) ==> Decode(Encode(s).value) == s
  {
    if IsLatin1(s) {
      var t := Decode(Encode(s).value);
      assert t == s by {
        forall i | 0 <= i < |s| ensures t[i] == s[i] {
          assert t[i] as int == Encode(s).value[i] as int == s[i] as int;
        }
      }
    }
  }

  /** An opaque object serializer: `serialize` raises on objects it cannot
      serialize, `deserialize` on bytes it cannot parse. */
  datatype Pickler<!T> = Pickler(serialize: T -> Result<seq<byte>, string>, deserialize: seq<byte> -> Result<T, string>)

  /** The serializer's own round trip: what it wrote, it reads back. */
  ghost predicate Faithful<T(!new)>(p: Pickler<T>)
  {
    forall x :: p.serialize(x).Success? ==> p.deserialize(p.serialize(x).value) == Success(x)
  }

  /** The two serializers of the module: `pickle`, and `dill` for behavioural
      objects such as signatures and types. */
  datatype Serializers<!T> = Serializers(pickle: Pickler<T>, dill: Pickler<T>)
  {
    function Chosen(useDill: bool): Pickler<T> { if useDill then dill else pickle }
  }

  /** Why `loads` raised. */
  datatype LoadError = NotLatin1(position: nat) | Malformed(message: string)

  /** `dumps(data, use_dill)`: it fails with the serializer's error, and
      otherwise its text is Latin-1 and encodes back to the serializer's bytes. */
  function Dumps<T>(sz: Serializers<T>, data: T, useDill: bool := false): (r: Result<string, string>)
    ensures r.Success? <==> sz.Chosen(useDill).serialize(data).Success?
    ensures r.Failure? ==> r.error == sz.Chosen(useDill).serialize(data).error
    ensures r.Success? ==> IsLatin1(r.value) && Encode(r.value) == Success(sz.Chosen(useDill).serialize(data).value)
  {
    match sz.Chosen(useDill).serialize(data)
    case Success(raw) =>
      EncodeDecode(raw);
      Success(Decode(raw))
    case Failure(e) => Failure(e)
  }

  /** `loads(data, use_dill)`: text with a character above U+00FF fails at
      the first such character; Latin-1 text is loaded exactly when the
      serializer reads its bytes. */
  function Loads<T>(sz: Serializers<T>, data: string, useDill: bool := false): (r: Result<T, LoadError>)
    ensures r.Failure? && r.error.NotLatin1? <==> !IsLatin1(data)
    ensures !IsLatin1(data) ==>
      && r.error.position < |data| && data[r.error.position] as int >= 256
      && forall i :: 0 <= i < r.error.position ==> data[i] as int < 256
    ensures IsLatin1(data) ==> (r.Success? <==> sz.Chosen(useDill).deserialize(Encode(data).value).Success?)
  {
    match Encode(data)
    case Failure(e) => Failure(NotLatin1(e.position))
    case Success(raw) =>
      match sz.Chosen(useDill).deserialize(raw)
      case Success(x) => Success(x)
      case Failure(e) => Failure(Malformed(e))
  }

  /** The text layer is lossless, so `loads(dumps(x))` is the serializer's own
      round trip, and returns `x` for a faithful serializer. */
  lemma LoadsDumps<T(!new)>(sz: Serializers<T>, x: T, useDill: bool)
    requires Dumps(sz, x, useDill).Success?
    ensures var raw := sz.Chosen(useDill).serialize(x).value;
      Loads(sz, Dumps(sz, x, useDill).value, useDill)
      == match sz.Chosen(useDill).deserialize(raw)
         case Success(y) => Success(y)
         case Failure(e) => Failure(Malformed(e))
    ensures Faithful(sz.Chosen(useDill)) ==> Loads(sz, Dumps(sz, x, useDill).value, useDill) == Success(x)
  {
    EncodeDecode(sz.Chosen(useDill).serialize(x).value);
  }

  /** The literal part of `contrib_pattern`, `autogoal_(?P<contrib>\w+)\.` */
  const ContribPrefix: string := "autogoal_"

  /** Length of the longest run of characters satisfying `isWord` starting at
      `from`; `isWord` stands for the Unicode class `\w`. */
  function WordRun(s: string, isWord: char -> bool, from: nat): (k: nat)
    requires from <= |s|
    ensures from + k <= |s|
    ensures forall j :: from <= j < from + k ==> isWord(s[j])
    ensures from + k < |s| ==> !isWord(s[from + k])
    decreases |s| - from
  {
    if from == |s| || !isWord(s[from]) then 0 else 1 + WordRun(s, isWord, from + 1)
  }

  /** The pattern matches `s` at position `p` with a `contrib` group of `k`
      characters: the prefix, then `k >= 1` word characters, then a dot. */
  ghost predicate MatchesAt(s: string, isWord: char -> bool, p: nat, k: nat)
  {
    && k >= 1
    && p + |ContribPrefix| + k < |s|
    && s[p..p + |ContribPrefix|] == ContribPrefix
    && (forall j :: p + |ContribPrefix| <= j < p + |ContribPrefix| + k ==> isWord(s[j]))
    && s[p + |ContribPrefix| + k] == '.'
  }

  /** Does the scan find a match at exactly `p`: the prefix, and the maximal word
      run after it is non-empty and followed by a dot. */
  predicate ProbeAt(s: string, isWord: char -> bool, p: nat)
    requires p + |ContribPrefix| <= |s|
  {
    && s[p..p + |ContribPrefix|] == ContribPrefix
    && var k := WordRun(s, isWord, p + |ContribPrefix|);
       k >= 1 && p + |ContribPrefix| + k < |s| && s[p + |ContribPrefix| + k] == '.'
  }

  /** `re.search` from position `from`: the first position that matches, with the
      length of its group. */
  function SearchFrom(s: string, isWord: char -> bool, from: nat): (r: Option<(nat, nat)>)
    decreases |s| - from
  {
    if from + |ContribPrefix| > |s| then None
    else if ProbeAt(s, isWord, from) then Some((from, WordRun(s, isWord, from + |ContribPrefix|)))
    else SearchFrom(s, isWord, from + 1)
  }

  /** What the scan returns is a position at or after `from` where it probed
      successfully, with the maximal word run after the prefix. */
  lemma {:induction false} SearchFromFinds(s: string, isWord: char -> bool, from: nat)
    ensures var r := SearchFrom(s, isWord, from);
      r.Some? ==>
        && from <= r.value.0 && r.value.0 + |ContribPrefix| <= |s|
        && ProbeAt(s, isWord, r.value.0)
        && r.value.1 == WordRun(s, isWord, r.value.0 + |ContribPrefix|)
    decreases |s| - from
  {
    if from + |ContribPrefix| <= |s| && !ProbeAt(s, isWord, from) {
      SearchFromFinds(s, isWord, from + 1);
    }
  }

  /** Since the dot is not a word character, a match at `p` has exactly the
      maximal word run after the prefix as its group: backtracking cannot find a
      shorter one. */
  lemma MatchIsMaximalRun(s: string, isWord: char -> bool, p: nat, k: nat)
    requires !isWord('.')
    requires MatchesAt(s, isWord, p, k)
    ensures k == WordRun(s, isWord, p + |ContribPrefix|)
  {
  }

  /** The scan from `from` returns the leftmost match at or after `from`, with
      its (unique) group length, and nothing iff there is no match there. */
  lemma {:induction false} SearchFromLeftmost(s: string, isWord: char -> bool, from: nat)
    requires !isWord('.')
    ensures var r := SearchFrom(s, isWord, from);
      && (r.Some? ==>
            && from <= r.value.0
            && MatchesAt(s, isWord, r.value.0, r.value.1)
            && (forall k :: MatchesAt(s, isWord, r.value.0, k) ==> k == r.value.1)
            && forall q, k :: from <= q < r.value.0 ==> !MatchesAt(s, isWord, q, k))
      && (r.None? ==> forall q, k :: from <= q ==> !MatchesAt(s, isWord, q, k))
    decreases |s| - from
  {
    forall k | MatchesAt(s, isWord, from, k) ensures k == WordRun(s, isWord, from + |ContribPrefix|) {
      MatchIsMaximalRun(s, isWord, from, k);
    }
    if from + |ContribPrefix| > |s| {
      forall q, k | from <= q ensures !MatchesAt(s, isWord, q, k) {
      }
    } else if ProbeAt(s, isWord, from) {
      var k := WordRun(s, isWord, from + |ContribPrefix|);
      assert MatchesAt(s, isWord, from, k);
      forall k' | MatchesAt(s, isWord, from, k') ensures k' == k {
        MatchIsMaximalRun(s, isWord, from, k');
      }
    } else {
      SearchFromLeftmost(s, isWord, from + 1);
      forall k | true ensures !MatchesAt(s, isWord, from, k) {
        if MatchesAt(s, isWord, from, k) {
          MatchIsMaximalRun(s, isWord, from, k);
          assert ProbeAt(s, isWord, from);
        }
      }
    }
  }

  /** `re.search(contrib_pattern, module)`: the position of the match and the
      length of its group. */
  function ContribMatch(path: string, isWord: char -> bool): Option<(nat, nat)>
  {
    SearchFrom(path, isWord, 0)
  }

  /** `re.search(contrib_pattern, module).group("contrib")`, or None where
      `re.search` finds no match. */
  function ContribTag(path: string, isWord: char -> bool): (tag: Option<string>)
    ensures tag.Some? <==> ContribMatch(path, isWord).Some?
    ensures tag.Some? ==>
      && |tag.value| == ContribMatch(path, isWord).value.1 >= 1
      && forall j :: 0 <= j < |tag.value| ==> isWord(tag.value[j])
  {
    SearchFromFinds(path, isWord, 0);
    match ContribMatch(path, isWord)
    case None => None
    case Some((p, k)) =>
      assert p + |ContribPrefix| + k <= |path|;
      Some(path[p + |ContribPrefix|..p + |ContribPrefix| + k])
  }

  /** The tag is found iff the pattern matches the module path somewhere. */
  lemma ContribTagFound(path: string, isWord: char -> bool)
    requires !isWord('.')
    ensures ContribTag(path, isWord).Some? <==> exists p: nat, k: nat :: MatchesAt(path, isWord, p, k)
  {
    SearchFromLeftmost(path, isWord, 0);
    if ContribMatch(path, isWord).Some? {
      var (p, k) := ContribMatch(path, isWord).value;
      assert MatchesAt(path, isWord, p, k);
    }
  }

  /** The tag is the group of the leftmost match: it is non-empty, made of word
      characters (so it holds no dot), and the module path reads `autogoal_`,
      the tag, then a dot at the first position where the pattern matches. */
  lemma ContribTagShape(path: string, isWord: char -> bool)
    requires !isWord('.')
    requires ContribTag(path, isWord).Some?
    ensures var tag := ContribTag(path, isWord).value;
      var p := ContribMatch(path, isWord).value.0;
      && |tag| >= 1
      && (forall j :: 0 <= j < |tag| ==> isWord(tag[j]) && tag[j] != '.')
      && MatchesAt(path, isWord, p, |tag|)
      && p + |ContribPrefix| + |tag| < |path|
      && path[p..p + |ContribPrefix| + |tag| + 1] == ContribPrefix + tag + "."
      && forall q: nat, k: nat :: q < p ==> !MatchesAt(path, isWord, q, k)
  {
    SearchFromLeftmost(path, isWord, 0);
    var (p, k) := ContribMatch(path, isWord).value;
    var tag := ContribTag(path, isWord).value;
    var n := |ContribPrefix|;
    assert MatchesAt(path, isWord, p, k);
    assert |tag| == k;
    assert path[p..p + n + k + 1] == path[p..p + n] + path[p + n..p + n + k] + [path[p + n + k]];
  }

  /** `RemoteAlgorithmDTO`: the descriptor of one remotely callable algorithm
      type, with its introspection results serialized as text. */
  datatype Descriptor = Descriptor(
    name: string,
    modulePath: string,
    contrib: string,
    inputArgs: string,
    initInputTypes: string,
    innerSignature: string,
    inputTypes: string,
    outputType: string)

  /** What `from_local_class` reads off a local algorithm class: its name, its
      module path, and the values its five introspection methods return. */
  datatype AlgorithmClass<T> = AlgorithmClass(
    name: string,
    modulePath: string,
    inputArgs: T,
    initInputTypes: T,
    innerSignature: T,
    inputTypes: T,
    outputType: T)

  /** Why `from_local_class` raised. */
  datatype DescriptorError =
    | NoContribTag                   // `.group` called on the None of a failed search
    | NotSerializable(message: string)

  /** `RemoteAlgorithmDTO.from_local_class(algorithm_cls)` */
  function FromLocalClass<T>(c: AlgorithmClass<T>, sz: Serializers<T>, isWord: char -> bool): (r: Result<Descriptor, DescriptorError>)
    ensures ContribTag(c.modulePath, isWord).None? ==> r == Failure(NoContribTag)
    ensures r.Success? ==>
      && r.value.name == c.name
      && r.value.modulePath == c.modulePath
      && ContribTag(c.modulePath, isWord) == Some(r.value.contrib)
  {
    match ContribTag(c.modulePath, isWord)
    case None => Failure(NoContribTag)
    case Some(contrib) =>
      match Dumps(sz, c.inputArgs)
      case Failure(e) => Failure(NotSerializable(e))
      case Success(inputArgs) =>
      match Dumps(sz, c.initInputTypes, useDill := true)
      case Failure(e) => Failure(NotSerializable(e))
      case Success(initInputTypes) =>
      match Dumps(sz, c.innerSignature, useDill := true)
      case Failure(e) => Failure(NotSerializable(e))
      case Success(innerSignature) =>
      match Dumps(sz, c.inputTypes)
      case Failure(e) => Failure(NotSerializable(e))
      case Success(inputTypes) =>
      match Dumps(sz, c.outputType)
      case Failure(e) => Failure(NotSerializable(e))
      case Success(outputType) =>
        Success(Descriptor(c.name, c.modulePath, contrib, inputArgs, initInputTypes, innerSignature, inputTypes, outputType))
  }

  /** A descriptor carries the class's introspection results losslessly: with
      faithful serializers, loading each field (with the serializer it was
      written with) gives back the class's own value. */
  lemma DescriptorFieldsRoundTrip<T(!new)>(c: AlgorithmClass<T>, sz: Serializers<T>, isWord: char -> bool)
    requires FromLocalClass(c, sz, isWord).Success?
    requires Faithful(sz.pickle) && Faithful(sz.dill)
    ensures var d := FromLocalClass(c, sz, isWord).value;
      && Loads(sz, d.inputArgs) == Success(c.inputArgs)
      && Loads(sz, d.initInputTypes, useDill := true) == Success(c.initInputTypes)
      && Loads(sz, d.innerSignature, useDill := true) == Success(c.innerSignature)
      && Loads(sz, d.inputTypes) == Success(c.inputTypes)
      && Loads(sz, d.outputType) == Success(c.outputType)
  {
    LoadsDumps(sz, c.inputArgs, false);
    LoadsDumps(sz, c.initInputTypes, true);
    LoadsDumps(sz, c.innerSignature, true);
    LoadsDumps(sz, c.inputTypes, false);
    LoadsDumps(sz, c.outputType, false);
  }
}

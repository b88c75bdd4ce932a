/** The static table of selectable models and the name-to-kind lookup the
    model selector builds from it with Ramda's `zipObj`. */
module ModelTable {
  import opened Common

  datatype ModelOption = ModelOption(name: string, kind: ModelKind)

  /** The selectable models, in the order the selector lists them. */
  function Options(): seq<ModelOption>
  {
    [ ModelOption("bert-base-cased", Bidirectional),
      ModelOption("bert-base-uncased", Bidirectional),
      ModelOption("distilbert-base-uncased", Bidirectional),
      ModelOption("distilroberta-base", Bidirectional),
      ModelOption("roberta-base", Bidirectional),
      ModelOption("gpt2", Autoregressive),
      ModelOption("gpt2-medium", Autoregressive),
      ModelOption("distilgpt2", Autoregressive) ]
  }

  function Names(opts: seq<ModelOption>): (r: seq<string>)
    ensures |r| == |opts| && forall i :: 0 <= i < |opts| ==> r[i] == opts[i].name
  {
    seq(|opts|, i requires 0 <= i < |opts| => opts[i].name)
  }

  function Kinds(opts: seq<ModelOption>): (r: seq<ModelKind>)
    ensures |r| == |opts| && forall i :: 0 <= i < |opts| ==> r[i] == opts[i].kind
  {
    seq(|opts|, i requires 0 <= i < |opts| => opts[i].kind)
  }

  function Min(a: int, b: int): int { if a <= b then a else b }

  /** Ramda's `zipObj`: pairs keys with values up to the shorter of the two;
      a key that repeats keeps the value of its last occurrence. */
  function ZipObj<K(==), V>(keys: seq<K>, vals: seq<V>): (m: map<K, V>)
    ensures m.Keys == set i | 0 <= i < Min(|keys|, |vals|) :: keys[i]
    decreases |keys|
  {
    var n := Min(|keys|, |vals|);
    if n == 0 then map[]
    else ZipObj(keys[..n - 1], vals[..n - 1])[keys[n - 1] := vals[n - 1]]
  }

  predicate Distinct<K(==)>(keys: seq<K>)
  {
    forall i, j :: 0 <= i < j < |keys| ==> keys[i] != keys[j]
  }

  /** With distinct keys every key maps to the value at its own position. */
  lemma {:induction false} ZipObjAt<K, V>(keys: seq<K>, vals: seq<V>, i: int)
    requires Distinct(keys)
    requires 0 <= i < Min(|keys|, |vals|)
    ensures keys[i] in ZipObj(keys, vals) && ZipObj(keys, vals)[keys[i]] == vals[i]
    decreases |keys|
  {
    var n := Min(|keys|, |vals|);
    if i < n - 1 {
      ZipObjAt(keys[..n - 1], vals[..n - 1], i);
    }
  }

  /** A key written again later keeps the later value. */
  lemma LastWriteWins<K, V>(keys: seq<K>, vals: seq<V>, k: K, v: V)
    requires |keys| == |vals|
    ensures ZipObj(keys + [k], vals + [v])[k] == v
  {
    assert (keys + [k])[..|keys|] == keys;
    assert (vals + [v])[..|vals|] == vals;
  }

  /** The lookup the selector's change handler performs: `None` stands for
      the `undefined` a name outside the table yields. */
  function KindOf(name: string): (r: Option<ModelKind>)
    ensures r.Some? <==> exists i :: 0 <= i < |Options()| && Options()[i].name == name
  {
    var kindmap := ZipObj(Names(Options()), Kinds(Options()));
    if name in kindmap then Some(kindmap[name]) else None
  }

  /** Every listed name maps to the kind listed beside it. */
  lemma KindOfListed(i: int)
    requires 0 <= i < |Options()|
    ensures KindOf(Options()[i].name) == Some(Options()[i].kind)
  {
    assert Distinct(Names(Options()));
    ZipObjAt(Names(Options()), Kinds(Options()), i);
  }

  /** The GPT-2 family is autoregressive and the BERT and RoBERTa family is
      bidirectional. */
  lemma KindTable()
    ensures KindOf("gpt2") == Some(Autoregressive)
    ensures KindOf("gpt2-medium") == Some(Autoregressive)
    ensures KindOf("distilgpt2") == Some(Autoregressive)
    ensures KindOf("bert-base-cased") == Some(Bidirectional)
    ensures KindOf("bert-base-uncased") == Some(Bidirectional)
    ensures KindOf("distilbert-base-uncased") == Some(Bidirectional)
    ensures KindOf("distilroberta-base") == Some(Bidirectional)
    ensures KindOf("roberta-base") == Some(Bidirectional)
  {
    KindOfListed(0); KindOfListed(1); KindOfListed(2); KindOfListed(3);
    KindOfListed(4); KindOfListed(5); KindOfListed(6); KindOfListed(7);
  }
}

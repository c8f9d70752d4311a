/** The request-signing recipe of the Remember The Milk REST API as the plugin
    writes it: sort the parameter names, append every name and value to the
    shared secret, and hash the result. The hash (MD5 in the plugin) is a
    parameter: the model does not say anything about the digest itself. */
module Signature {

  /** The order of JavaScript's default `Array.prototype.sort` on strings:
      character by character, a proper prefix before its extensions. */
  predicate Below(a: string, b: string)
    decreases |a|
  {
    |b| > 0 && (|a| == 0 || a[0] < b[0] || (a[0] == b[0] && Below(a[1..], b[1..])))
  }

  lemma {:induction false} BelowIrreflexive(a: string)
    ensures !Below(a, a)
    decreases |a|
  {
    if |a| > 0 {
      BelowIrreflexive(a[1..]);
    }
  }

  lemma {:induction false} BelowTransitive(a: string, b: string, c: string)
    requires Below(a, b) && Below(b, c)
    ensures Below(a, c)
    decreases |a|
  {
    if |a| > 0 && a[0] == b[0] && b[0] == c[0] {
      BelowTransitive(a[1..], b[1..], c[1..]);
    }
  }

  lemma BelowAsymmetric(a: string, b: string)
    requires Below(a, b)
    ensures !Below(b, a)
  {
    if Below(b, a) {
      BelowTransitive(a, b, a);
      BelowIrreflexive(a);
    }
  }

  lemma {:induction false} BelowTotal(a: string, b: string)
    requires a != b
    ensures Below(a, b) || Below(b, a)
    decreases |a|
  {
    if |a| > 0 && |b| > 0 && a[0] == b[0] {
      assert a == [a[0]] + a[1..] && b == [b[0]] + b[1..];
      BelowTotal(a[1..], b[1..]);
    }
  }

  function Elements(ks: seq<string>): set<string> {
    set k | k in ks
  }

  lemma ElementsEmpty(ks: seq<string>)
    ensures Elements(ks) == {} <==> ks == []
  {
    if ks != [] {
      assert ks[0] in Elements(ks);
    }
  }

  /** Ascending without repetitions: what `Object.keys(o).sort()` yields. */
  predicate StrictlySorted(ks: seq<string>) {
    forall i, j :: 0 <= i < j < |ks| ==> Below(ks[i], ks[j])
  }

  /** Two sorted enumerations of the same names are the same sequence: the order
      in which the names are signed cannot depend on the order they were added in. */
  lemma {:induction false} SortedUnique(a: seq<string>, b: seq<string>)
    requires StrictlySorted(a) && StrictlySorted(b)
    requires Elements(a) == Elements(b)
    ensures a == b
    decreases |a|
  {
    if a == [] {
      ElementsEmpty(b);
    } else {
      assert a[0] in Elements(b);
      assert b != [];
      assert b[0] in Elements(a);
      if a[0] != b[0] {
        var i :| 0 <= i < |a| && a[i] == b[0];
        var j :| 0 <= j < |b| && b[j] == a[0];
        assert Below(a[0], b[0]);
        assert Below(b[0], a[0]);
        BelowAsymmetric(a[0], b[0]);
      }
      forall k | k in Elements(a[1..])
        ensures k in Elements(b[1..])
      {
        var i :| 1 <= i < |a| && a[i] == k;
        BelowIrreflexive(k);
        assert k in Elements(b);
        var j :| 0 <= j < |b| && b[j] == k;
        assert j != 0;
      }
      forall k | k in Elements(b[1..])
        ensures k in Elements(a[1..])
      {
        var j :| 1 <= j < |b| && b[j] == k;
        BelowIrreflexive(k);
        assert k in Elements(a);
        var i :| 0 <= i < |a| && a[i] == k;
        assert i != 0;
      }
      SortedUnique(a[1..], b[1..]);
      assert a == [a[0]] + a[1..] && b == [b[0]] + b[1..];
    }
  }

  /** Inserts a new name into a sorted sequence of names. */
  function Insert(k: string, ks: seq<string>): (r: seq<string>)
    requires StrictlySorted(ks) && k !in ks
    ensures StrictlySorted(r) && Elements(r) == Elements(ks) + {k} && |r| == |ks| + 1
  {
    if ks == [] || Below(k, ks[0]) then
      assert forall j :: 0 < j < |ks| ==> Below(k, ks[j]) by {
        forall j | 0 < j < |ks| ensures Below(k, ks[j]) {
          BelowTransitive(k, ks[0], ks[j]);
        }
      }
      [k] + ks
    else
      BelowTotal(k, ks[0]);
      var rest := Insert(k, ks[1..]);
      assert forall j :: 0 <= j < |rest| ==> Below(ks[0], rest[j]) by {
        forall j | 0 <= j < |rest| ensures Below(ks[0], rest[j]) {
          assert rest[j] in Elements(ks[1..]) + {k};
          if rest[j] != k {
            var i :| 1 <= i < |ks| && ks[i] == rest[j];
          }
        }
      }
      assert Elements(ks) == {ks[0]} + Elements(ks[1..]) by {
        assert ks == [ks[0]] + ks[1..];
      }
      [ks[0]] + rest
  }

  lemma {:induction false} SortedExists(keys: set<string>)
    ensures exists ks :: StrictlySorted(ks) && Elements(ks) == keys
    decreases keys
  {
    if keys == {} {
      assert StrictlySorted([]) && Elements([]) == keys;
    } else {
      var k :| k in keys;
      SortedExists(keys - {k});
      var ks :| StrictlySorted(ks) && Elements(ks) == keys - {k};
      var r := Insert(k, ks);
      assert Elements(r) == keys;
    }
  }

  /** The parameter names in signing order. */
  ghost function Canonical(keys: set<string>): (ks: seq<string>)
    ensures StrictlySorted(ks) && Elements(ks) == keys
  {
    SortedExists(keys);
    var ks :| StrictlySorted(ks) && Elements(ks) == keys; ks
  }

  /** `key + value` for each name of `ks`, in the order of `ks`. */
  function Pairs(params: map<string, string>, ks: seq<string>): string
    requires Elements(ks) <= params.Keys
  {
    if ks == [] then ""
    else
      var k := ks[|ks| - 1];
      assert k in Elements(ks);
      Pairs(params, ks[..|ks| - 1]) + k + params[k]
  }

  /** The text that is hashed: the shared secret, then every parameter name and
      its value, names in ascending order. */
  ghost function SigningText(secret: string, params: map<string, string>): string {
    secret + Pairs(params, Canonical(params.Keys))
  }

  /** `Object.keys(o).sort()`: the names are taken in whatever order the object
      holds them and sorted. */
  method SortKeys(keys: set<string>) returns (ks: seq<string>)
    ensures StrictlySorted(ks) && Elements(ks) == keys
  {
    ks := [];
    var rest := keys;
    while rest != {}
      invariant StrictlySorted(ks)
      invariant Elements(ks) + rest == keys && Elements(ks) !! rest
      decreases rest
    {
      var k :| k in rest;
      ks := Insert(k, ks);
      rest := rest - {k};
    }
  }

  /** The loop `sigString += key + params[key]` over the sorted names. */
  method BuildSigningText(secret: string, params: map<string, string>) returns (s: string)
    ensures s == SigningText(secret, params)
  {
    var keys := SortKeys(params.Keys);
    SortedUnique(keys, Canonical(params.Keys));
    s := secret;
    var i := 0;
    while i < |keys|
      invariant 0 <= i <= |keys|
      invariant s == secret + Pairs(params, keys[..i])
    {
      assert keys[i] in Elements(keys);
      assert keys[..i + 1][..i] == keys[..i];
      s := s + (keys[i] + params[keys[i]]);
      i := i + 1;
    }
    assert keys[..|keys|] == keys;
  }

  /** `MD5(sigString).toString()`, with the digest as a parameter. */
  method Signature(secret: string, params: map<string, string>, digest: string -> string) returns (sig: string)
    ensures sig == digest(SigningText(secret, params))
  {
    var text := BuildSigningText(secret, params);
    sig := digest(text);
  }

  /** The parameters that go on the wire: the signed ones plus `api_sig`. */
  method SignRequest(secret: string, params: map<string, string>, digest: string -> string)
    returns (request: map<string, string>)
    ensures request == params["api_sig" := digest(SigningText(secret, params))]
  {
    var sig := Signature(secret, params, digest);
    request := params["api_sig" := sig];
  }

  /** Whatever sorted enumeration of the names is used, the signed text is the same. */
  lemma SigningTextAnyOrder(secret: string, params: map<string, string>, ks: seq<string>)
    requires StrictlySorted(ks) && Elements(ks) == params.Keys
    ensures SigningText(secret, params) == secret + Pairs(params, ks)
  {
    SortedUnique(ks, Canonical(params.Keys));
  }

  lemma {:induction false} PairsAppend(params: map<string, string>, a: seq<string>, b: seq<string>)
    requires Elements(a + b) <= params.Keys
    ensures Elements(a) <= params.Keys && Elements(b) <= params.Keys
    ensures Pairs(params, a + b) == Pairs(params, a) + Pairs(params, b)
    decreases |b|
  {
    assert Elements(a) <= Elements(a + b) && Elements(b) <= Elements(a + b);
    if b != [] {
      var b' := b[..|b| - 1];
      assert (a + b)[..|a + b| - 1] == a + b';
      assert Elements(a + b') <= Elements(a + b);
      PairsAppend(params, a, b');
      var k := b[|b| - 1];
      assert (a + b)[|a + b| - 1] == k;
      calc {
        Pairs(params, a + b);
        Pairs(params, a + b') + k + params[k];
        Pairs(params, a) + Pairs(params, b') + k + params[k];
        Pairs(params, a) + (Pairs(params, b') + k + params[k]);
        Pairs(params, a) + Pairs(params, b);
      }
    } else {
      assert a + b == a;
    }
  }

  lemma {:induction false} PairsAgree(m: map<string, string>, m': map<string, string>, ks: seq<string>)
    requires Elements(ks) <= m.Keys && Elements(ks) <= m'.Keys
    requires forall k :: k in ks ==> m[k] == m'[k]
    ensures Pairs(m, ks) == Pairs(m', ks)
    decreases |ks|
  {
    if ks != [] {
      assert Elements(ks[..|ks| - 1]) <= Elements(ks);
      PairsAgree(m, m', ks[..|ks| - 1]);
    }
  }

  lemma MiddleDiffers(p: string, x: string, y: string, q: string)
    requires x != y
    ensures p + x + q != p + y + q
  {
    if |x| == |y| {
      assert (p + x + q)[|p|..|p| + |x|] == x;
      assert (p + y + q)[|p|..|p| + |y|] == y;
    } else {
      assert |p + x + q| != |p + y + q|;
    }
  }

  lemma PairsSensitive(params: map<string, string>, ks: seq<string>, k: string, v: string)
    requires StrictlySorted(ks) && Elements(ks) <= params.Keys
    requires k in ks && params[k] != v
    ensures Pairs(params, ks) != Pairs(params[k := v], ks)
  {
    var i :| 0 <= i < |ks| && ks[i] == k;
    var a, b := ks[..i], ks[i + 1..];
    SortedApart(ks, i);
    assert ks == (a + [k]) + b;
    PairsChangeOne(params, a, k, b, v);
  }

  /** In a sorted enumeration a name occurs at one position only. */
  lemma SortedApart(ks: seq<string>, i: nat)
    requires StrictlySorted(ks) && i < |ks|
    ensures ks[i] !in ks[..i] && ks[i] !in ks[i + 1..]
  {
    forall j | 0 <= j < i ensures ks[..i][j] != ks[i] {
      BelowIrreflexive(ks[i]);
    }
    forall j | i + 1 <= j < |ks| ensures ks[j] != ks[i] {
      BelowIrreflexive(ks[i]);
    }
  }

  lemma PairsChangeOne(params: map<string, string>, a: seq<string>, k: string, b: seq<string>, v: string)
    requires Elements(a + [k] + b) <= params.Keys
    requires k !in a && k !in b && params[k] != v
    ensures Pairs(params, a + [k] + b) != Pairs(params[k := v], a + [k] + b)
  {
    var params' := params[k := v];
    PairsAppend(params, a + [k], b);
    PairsAppend(params', a + [k], b);
    PairsAgree(params, params', a);
    PairsAgree(params, params', b);
    assert (a + [k])[..|a + [k]| - 1] == a;
    assert Pairs(params, a + [k]) == Pairs(params, a) + k + params[k];
    assert Pairs(params', a + [k]) == Pairs(params, a) + k + v;
    MiddleDiffers(Pairs(params, a) + k, params[k], v, Pairs(params, b));
  }

  /** Changing the value of one parameter changes the text that is hashed. */
  lemma SigningTextSensitive(secret: string, params: map<string, string>, k: string, v: string)
    requires k in params && params[k] != v
    ensures SigningText(secret, params) != SigningText(secret, params[k := v])
  {
    assert params[k := v].Keys == params.Keys;
    var ks := Canonical(params.Keys);
    assert k in Elements(ks);
    assert Canonical(params[k := v].Keys) == ks;
    PairsSensitive(params, ks, k, v);
    MiddleDiffers(secret, Pairs(params, ks), Pairs(params[k := v], ks), "");
  }
}

/** redactSecrets and isSecretKey (cmd/kascli/commands.go). */
module Redaction {
  import opened Values

  predicate HasSuffix(s: string, suffix: string) {
    |suffix| <= |s| && s[|s| - |suffix|..] == suffix
  }

  /** The response fields that carry a secret; show_password is a flag. */
  predicate IsSecretKey(key: string) {
    || (HasSuffix(key, "_password") && key != "show_password")
    || key == "ssl_certificate_sni_key"
  }

  /** Every key that ends in _password is secret, with whatever in front of it but show, and besides those only
      the private key of a certificate. */
  lemma SecretKeys(key: string, prefix: string)
    ensures IsSecretKey(prefix + "_password") <==> prefix != "show"
    ensures IsSecretKey("ssl_certificate_sni_key")
    ensures IsSecretKey(key) && key != "ssl_certificate_sni_key" ==>
      |key| >= 9 && key[|key| - 9..] == "_password" && key[..|key| - 9] != "show"
  {
    var named := prefix + "_password";
    assert named[|named| - 9..] == "_password" && named[..|named| - 9] == prefix;
    assert "show_password"[..4] == "show";
    if named == "show_password" {
      assert named[..|named| - 9] == "show";
    }
    if prefix == "show" {
      assert named == "show_password";
    }
    assert named[|named| - 1] == 'd' && "ssl_certificate_sni_key"[22] == 'y';
    if IsSecretKey(key) && key != "ssl_certificate_sni_key" {
      assert key == key[..|key| - 9] + key[|key| - 9..];
    }
  }

  const REDACTED := Str("REDACTED")

  /** A string that is replaced when it stands directly under a secret key. */
  predicate Hidden(key: string, v: Value) {
    v.Str? && v.chars != "" && IsSecretKey(key)
  }

  /** What redaction means. */
  function Redact(v: Value): Value {
    match v
    case Map(fields) =>
      Map(map k | k in fields :: if Hidden(k, fields[k]) then REDACTED else Redact(fields[k]))
    case List(items) =>
      List(seq(|items|, i requires 0 <= i < |items| => Redact(items[i])))
    case _ => v
  }

  /** redactSecrets: fills a fresh map or slice entry by entry. */
  method RedactSecrets(v: Value) returns (out: Value)
    ensures out == Redact(v)
    decreases v
  {
    match v
    case Map(fields) =>
      var res: map<string, Value> := map[];
      var todo := fields.Keys;
      while todo != {}
        invariant todo <= fields.Keys
        invariant res.Keys == fields.Keys - todo
        invariant forall k | k in res :: res[k] == Redact(v).fields[k]
        decreases |todo|
      {
        var k :| k in todo;
        todo := todo - {k};
        if Hidden(k, fields[k]) {
          res := res[k := REDACTED];
        } else {
          var entry := RedactSecrets(fields[k]);
          res := res[k := entry];
        }
      }
      out := Map(res);
    case List(items) =>
      var res: seq<Value> := [];
      for i := 0 to |items|
        invariant |res| == i
        invariant forall j | 0 <= j < i :: res[j] == Redact(items[j])
      {
        var entry := RedactSecrets(items[i]);
        res := res + [entry];
      }
      out := List(res);
    case _ =>
      out := v;
  }

  /** A path into a value tree: map keys and list positions. */
  datatype Step = Key(key: string) | Index(index: nat)
  datatype Found = Missing | Present(value: Value)

  function Child(v: Value, s: Step): Found {
    match s
    case Key(k) => if v.Map? && k in v.fields then Present(v.fields[k]) else Missing
    case Index(i) => if v.List? && i < |v.items| then Present(v.items[i]) else Missing
  }

  function At(v: Value, path: seq<Step>): Found {
    if path == [] then Present(v)
    else match Child(v, path[0])
      case Missing => Missing
      case Present(c) => At(c, path[1..])
  }

  /** The path ends at a secret key. */
  predicate EndsAtSecret(path: seq<Step>) {
    path != [] && path[|path| - 1].Key? && IsSecretKey(path[|path| - 1].key)
  }

  /** Two values have the same outermost shape: kind, keys, length. */
  predicate SameShape(a: Value, b: Value) {
    match a
    case Nil => b.Nil?
    case Str(_) => b.Str?
    case List(items) => b.List? && |b.items| == |items|
    case Map(fields) => b.Map? && b.fields.Keys == fields.Keys
  }

  /** Redaction position by position, at any depth: a path exists before exactly when it exists
      after, the shape there is the same, and a string there is replaced exactly when it is not
      empty and the path ends at a secret key. */
  lemma {:induction false} RedactAt(v: Value, path: seq<Step>)
    ensures At(v, path).Present? <==> At(Redact(v), path).Present?
    ensures At(v, path).Present? ==>
      var before, after := At(v, path).value, At(Redact(v), path).value;
      && SameShape(before, after)
      && (before.Str? ==> after == if before.chars != "" && EndsAtSecret(path) then REDACTED else before)
    decreases path
  {
    if path != [] && Child(v, path[0]).Present? {
      var c := Child(v, path[0]).value;
      if path[0].Key? && Hidden(path[0].key, c) {
        assert Child(Redact(v), path[0]) == Present(REDACTED);
        if path[1..] != [] {
          assert Child(c, path[1]).Missing? && Child(REDACTED, path[1]).Missing?;
        }
      } else {
        assert Child(Redact(v), path[0]) == Present(Redact(c));
        RedactAt(c, path[1..]);
        assert path[1..] != [] ==> path[1..][|path| - 2] == path[|path| - 1];
      }
    }
  }

  /** A second pass changes nothing. */
  lemma {:induction false} RedactIdempotent(v: Value)
    ensures Redact(Redact(v)) == Redact(v)
  {
    match v
    case Map(fields) =>
      forall k | k in fields && !Hidden(k, fields[k])
        ensures Redact(Redact(fields[k])) == Redact(fields[k])
      {
        RedactIdempotent(fields[k]);
      }
      assert Redact(Redact(v)).fields == Redact(v).fields;
    case List(items) =>
      forall i | 0 <= i < |items|
        ensures Redact(Redact(items[i])) == Redact(items[i])
      {
        RedactIdempotent(items[i]);
      }
      assert Redact(Redact(v)).items == Redact(v).items;
    case _ =>
  }

  /** Nothing changes exactly when no secret string is present at any path. */
  lemma RedactFixpoint(v: Value)
    ensures Redact(v) == v <==>
      forall path | EndsAtSecret(path) && At(v, path).Present? && At(v, path).value.Str? ::
        At(v, path).value.chars in ["", "REDACTED"]
  {
    if Redact(v) == v {
      forall path | EndsAtSecret(path) && At(v, path).Present? && At(v, path).value.Str?
        ensures At(v, path).value.chars in ["", "REDACTED"]
      {
        RedactAt(v, path);
      }
    } else {
      var path := Changed(v);
      assert EndsAtSecret(path);
    }
  }

  /** A secret string in a value that redaction changes. */
  lemma {:induction false} Changed(v: Value) returns (path: seq<Step>)
    requires Redact(v) != v
    ensures EndsAtSecret(path)
    ensures At(v, path).Present? && At(v, path).value.Str?
    ensures At(v, path).value.chars !in ["", "REDACTED"]
  {
    match v
    case Map(fields) =>
      assert Redact(v).fields != fields;
      var k :| k in fields && Redact(v).fields[k] != fields[k];
      if Hidden(k, fields[k]) {
        path := [Key(k)];
        assert At(fields[k], path[1..]) == Present(fields[k]);
      } else {
        var rest := Changed(fields[k]);
        path := [Key(k)] + rest;
        assert path[1..] == rest;
      }
    case List(items) =>
      assert Redact(v).items != items;
      var i :| 0 <= i < |items| && Redact(v).items[i] != items[i];
      var rest := Changed(items[i]);
      path := [Index(i)] + rest;
      assert path[1..] == rest;
    case _ =>
  }
}

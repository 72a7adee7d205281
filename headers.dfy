/**
  The read-only header view over a WSGI environ (`RequestHeader`).

  A header name is looked up by translating it to the environ's own key:
  hyphens become underscores, letters are upper-cased, and every key except
  `CONTENT_LENGTH` and `CONTENT_TYPE` gains an `HTTP_` prefix.  The view
  never changes the environ: writes and deletions always raise.
 */
module Headers {
  import opened Strings
  import opened Values

  type Environ = map<string, string>

  /** The two environ keys that carry no `HTTP_` prefix. */
  const NonHttpKeys: set<string> := {"CONTENT_LENGTH", "CONTENT_TYPE"}

  function CanonicalChar(c: char): char
  {
    UpperChar(if c == '-' then '_' else c)
  }

  /** `key.replace('-', '_').upper()` */
  function Canonical(key: string): (r: string)
    ensures |r| == |key|
    ensures forall i :: 0 <= i < |key| ==> r[i] == CanonicalChar(key[i])
  {
    Upper(Replace(key, '-', '_'))
  }

  /** `translate_key`: the environ key a header name is stored under. */
  function TranslateKey(key: string): string
  {
    var k := Canonical(key);
    if k in NonHttpKeys then k else "HTTP_" + k
  }

  /** `__getitem__`: the environ entry of the translated key, or KeyError. */
  function GetItem(environ: Environ, key: string): (r: Result<string>)
    ensures r.Ok? <==> TranslateKey(key) in environ
    ensures r.Ok? ==> r.value == environ[TranslateKey(key)]
  {
    var k := TranslateKey(key);
    if k in environ then Ok(environ[k]) else Err(MissingHeader(k))
  }

  /** `__contains__` */
  predicate Contains(environ: Environ, key: string)
  {
    TranslateKey(key) in environ
  }

  /** `__setitem__`: the view is read-only, so every assignment raises and the environ is untouched. */
  function SetItem(environ: Environ, key: string, value: string): (r: Outcome)
    ensures r.Fail? && r.error == ReadOnlyView
  {
    Fail(ReadOnlyView)
  }

  /** `__delitem__`: likewise always raises. */
  function DelItem(environ: Environ, key: string): (r: Outcome)
    ensures r.Fail? && r.error == ReadOnlyView
  {
    Fail(ReadOnlyView)
  }

  /** `raw`: the environ entry under its own key, with a default. */
  function Raw(environ: Environ, key: string, default: string): (r: string)
    ensures key in environ ==> r == environ[key]
    ensures key !in environ ==> r == default
  {
    if key in environ then environ[key] else default
  }

  /** The name `__iter__` yields for one environ key, when it yields one. */
  predicate Yields(k: string)
  {
    StartsWith(k, "HTTP_") || k in NonHttpKeys
  }

  function YieldedName(k: string): string
  {
    if StartsWith(k, "HTTP_") then k[5..] else k
  }

  /**
    `__iter__` / `keys()` as a set (the environ dict has no order).  The
    iterator yields one name per `HTTP_` or bare content key, so a name both an `HTTP_` key
    and a bare content key produce (`CONTENT_TYPE` when `HTTP_CONTENT_TYPE`
    and `CONTENT_TYPE` are both present) is yielded twice there, and
    `__len__` counts the yielded names, repeats included; the set keeps each
    name once.
   */
  function Names(environ: Environ): set<string>
  {
    set k | k in environ && Yields(k) :: YieldedName(k)
  }

  /** `keys_starting_with`: the single-entry dicts `{x[5:]: environ[x]}`, as pairs. */
  function KeysStartingWith(environ: Environ, prefix: string): set<(string, string)>
  {
    var p := TranslateKey(prefix);
    set x | x in environ && StartsWith(x, p) :: (x[5..], environ[x])
  }

  // ---------------------------------------------------------------------
  // Properties of the translation and of the view.
  // ---------------------------------------------------------------------

  /**
    The translated key is either one of the two bare content keys or
    `HTTP_` followed by the canonical name; it never contains a hyphen or
    a lower-case ASCII letter.
   */
  lemma TranslateKeyShape(key: string)
    ensures var r := TranslateKey(key);
      (Canonical(key) in NonHttpKeys && r == Canonical(key))
      || (Canonical(key) !in NonHttpKeys && r == "HTTP_" + Canonical(key))
    ensures forall i :: 0 <= i < |TranslateKey(key)| ==>
      TranslateKey(key)[i] != '-' && !('a' <= TranslateKey(key)[i] <= 'z')
  {
    var k := Canonical(key);
    var r := TranslateKey(key);
    forall i | 0 <= i < |r|
      ensures r[i] != '-' && !('a' <= r[i] <= 'z')
    {
      if k !in NonHttpKeys && i >= 5 {
        assert r[i] == k[i - 5] == CanonicalChar(key[i - 5]);
      }
    }
  }

  /**
    Two header names reach the same environ entry exactly when they are
    equal up to ASCII case and the hyphen/underscore distinction.
   */
  lemma TranslateKeySameEntry(k1: string, k2: string)
    ensures TranslateKey(k1) == TranslateKey(k2) <==> Canonical(k1) == Canonical(k2)
  {
    var c1, c2 := Canonical(k1), Canonical(k2);
    if c1 in NonHttpKeys && c2 !in NonHttpKeys {
      assert TranslateKey(k1)[0] == 'C' && TranslateKey(k2)[0] == 'H';
    } else if c1 !in NonHttpKeys && c2 in NonHttpKeys {
      assert TranslateKey(k1)[0] == 'H' && TranslateKey(k2)[0] == 'C';
    } else if c1 !in NonHttpKeys && c2 !in NonHttpKeys {
      assert c1 == TranslateKey(k1)[5..] && c2 == TranslateKey(k2)[5..];
    }
  }

  /** Names differing only in letter case and `-`/`_` are the same header. */
  lemma SpellingsAgree(k1: string, k2: string)
    requires |k1| == |k2|
    requires forall i :: 0 <= i < |k1| ==> CanonicalChar(k1[i]) == CanonicalChar(k2[i])
    ensures TranslateKey(k1) == TranslateKey(k2)
    ensures forall e: Environ :: GetItem(e, k1) == GetItem(e, k2)
    ensures forall e: Environ :: Contains(e, k1) <==> Contains(e, k2)
  {
    assert Canonical(k1) == Canonical(k2);
  }

  /** `content-type` and `Content-Type` both read the bare CONTENT_TYPE entry. */
  lemma ContentTypeSpellings(environ: Environ)
    ensures TranslateKey("content-type") == TranslateKey("Content-Type") == "CONTENT_TYPE"
    ensures GetItem(environ, "content-type") == GetItem(environ, "Content-Type")
  {
    assert Canonical("content-type") == "CONTENT_TYPE";
    assert Canonical("Content-Type") == "CONTENT_TYPE";
  }

  /**
    Iteration yields exactly the `HTTP_` keys with the prefix stripped and
    the bare content keys that are present.
   */
  lemma NamesExactly(environ: Environ, name: string)
    ensures name in Names(environ) <==>
      ("HTTP_" + name in environ || (name in NonHttpKeys && name in environ))
  {
    if "HTTP_" + name in environ {
      var k := "HTTP_" + name;
      assert StartsWith(k, "HTTP_") && k[5..] == name;
      assert YieldedName(k) == name;
    } else if name in NonHttpKeys && name in environ {
      assert name[0] == 'C';
      assert !StartsWith(name, "HTTP_");
      assert YieldedName(name) == name;
    }
    if name in Names(environ) {
      var k :| k in environ && Yields(k) && YieldedName(k) == name;
      if StartsWith(k, "HTTP_") {
        assert k == "HTTP_" + k[5..];
      }
    }
  }

  /** An environ whose header keys are already in canonical form. */
  ghost predicate CanonicalEnviron(environ: Environ)
  {
    && (forall k :: k in environ && StartsWith(k, "HTTP_") ==> Canonical(k[5..]) == k[5..])
    && "HTTP_CONTENT_TYPE" !in environ
    && "HTTP_CONTENT_LENGTH" !in environ
  }

  /**
    In a canonical environ every name the view yields is found again by
    `in` and `[]`; without canonical keys that round trip can fail (a key
    `HTTP_x` yields `x`, which translates to `HTTP_X`).
   */
  lemma NamesAreContained(environ: Environ, name: string)
    requires CanonicalEnviron(environ)
    requires name in Names(environ)
    ensures Contains(environ, name)
    ensures GetItem(environ, name).Ok?
  {
    NamesExactly(environ, name);
    if "HTTP_" + name in environ {
      HttpNameTranslates(environ, name);
    } else {
      assert Canonical(name) == name;
    }
  }

  lemma HttpNameTranslates(environ: Environ, name: string)
    requires CanonicalEnviron(environ)
    requires "HTTP_" + name in environ
    ensures TranslateKey(name) == "HTTP_" + name
  {
    var k := "HTTP_" + name;
    assert k[5..] == name;
    assert StartsWith(k, "HTTP_");
    assert Canonical(name) == name;
    assert "HTTP_" + "CONTENT_TYPE" == "HTTP_CONTENT_TYPE";
    assert "HTTP_" + "CONTENT_LENGTH" == "HTTP_CONTENT_LENGTH";
  }

  /**
    For an ordinary (non-content) prefix, `keys_starting_with` returns the
    `HTTP_` entries whose stripped name starts with the canonical prefix.
   */
  lemma KeysStartingWithHttp(environ: Environ, prefix: string, name: string, value: string)
    requires Canonical(prefix) !in NonHttpKeys
    ensures (name, value) in KeysStartingWith(environ, prefix) <==>
      ("HTTP_" + name in environ && StartsWith(name, Canonical(prefix)) && environ["HTTP_" + name] == value)
  {
    var p := TranslateKey(prefix);
    var c := Canonical(prefix);
    assert p == "HTTP_" + c;
    if (name, value) in KeysStartingWith(environ, prefix) {
      var x :| x in environ && StartsWith(x, p) && (x[5..], environ[x]) == (name, value);
      assert x == "HTTP_" + name;
      assert name[..|c|] == x[5..5 + |c|] == p[5..] == c;
    }
    if "HTTP_" + name in environ && StartsWith(name, c) && environ["HTTP_" + name] == value {
      var x := "HTTP_" + name;
      assert x[..|p|] == p;
      assert (x[5..], environ[x]) == (name, value);
    }
  }

  /**
    For a content prefix (`content-type`, `content-length` in any spelling)
    the translated prefix is the bare key, yet five characters are still cut
    off: the entries under `CONTENT_TYPE` come back named `NT_TYPE…`.
   */
  lemma KeysStartingWithContent(environ: Environ, prefix: string, name: string, value: string)
    requires Canonical(prefix) in NonHttpKeys
    ensures (name, value) in KeysStartingWith(environ, prefix) <==>
      ("CONTE" + name in environ && StartsWith(name, Canonical(prefix)[5..]) && environ["CONTE" + name] == value)
  {
    var p := TranslateKey(prefix);
    assert p == Canonical(prefix);
    assert p[..5] == "CONTE";
    if (name, value) in KeysStartingWith(environ, prefix) {
      var x :| x in environ && StartsWith(x, p) && (x[5..], environ[x]) == (name, value);
      assert x[..5] == p[..5];
      assert x == "CONTE" + name;
      assert name[..|p| - 5] == x[5..|p|] == p[5..];
    }
    if "CONTE" + name in environ && StartsWith(name, p[5..]) && environ["CONTE" + name] == value {
      var x := "CONTE" + name;
      assert x[..|p|] == p[..5] + name[..|p| - 5] == p;
      assert (x[5..], environ[x]) == (name, value);
    }
  }
}

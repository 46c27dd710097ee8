/** The method identifier "namespace/action/version": normalising, splitting,
    validating, the request path built from it, and the per-namespace table
    that says whether a call needs a handshake. */
module MethodId {
  import opened JsValue

  datatype Identifier = Identifier(namespace: string, action: string, version: string)

  /** The per-namespace handshake tables that can be loaded, by namespace name;
      each maps "action/version" to a value whose truthiness is the answer. */
  type Tables = map<string, map<string, Value>>

  /** `m.replace(/(^\/|\/$)/g, '')`: one leading and one trailing slash go. */
  function Strip(m: string): (r: string)
    ensures m == r || m == "/" + r || m == r + "/" || m == "/" + r + "/"
    ensures |m| > 0 && m[0] == '/' ==> m[1..] == r || m[1..] == r + "/"
    ensures |m| > 1 && m[|m| - 1] == '/' ==> m[..|m| - 1] == r || m[..|m| - 1] == "/" + r
    ensures |m| > 1 && m[0] == '/' && m[|m| - 1] == '/' ==> r == m[1..|m| - 1]
  {
    var a := if |m| > 0 && m[0] == '/' then m[1..] else m;
    if |a| > 0 && a[|a| - 1] == '/' then a[..|a| - 1] else a
  }

  /** Number of slashes in a string. */
  function Slashes(s: string): nat {
    if s == [] then 0 else (if s[0] == '/' then 1 else 0) + Slashes(s[1..])
  }

  predicate NoSlash(s: string) {
    '/' !in s
  }

  /** `parts.join('/')`. */
  function Join(parts: seq<string>): string {
    if parts == [] then ""
    else if |parts| == 1 then parts[0]
    else parts[0] + "/" + Join(parts[1..])
  }

  /** `s.split('/')`: the pieces between slashes, one more than there are
      slashes, each free of slashes, and joined back they give `s`. */
  function Split(s: string): (parts: seq<string>)
    ensures |parts| == Slashes(s) + 1
    ensures forall i :: 0 <= i < |parts| ==> NoSlash(parts[i])
    ensures Join(parts) == s
  {
    if s == [] then [""]
    else
      var rest := Split(s[1..]);
      if s[0] == '/' then
        assert s == "/" + s[1..];
        [""] + rest
      else
        var parts := [[s[0]] + rest[0]] + rest[1..];
        assert s == [s[0]] + s[1..];
        assert parts[1..] == rest[1..];
        parts
  }

  /** The identifier of a method string, or `None` when the normalised string
      has fewer than three "/"-separated parts. */
  function Parse(m: string): (r: Option<Identifier>)
    ensures r.None? <==> Slashes(Strip(m)) < 2
    ensures r.Some? ==> NoSlash(r.value.namespace) && NoSlash(r.value.action) && NoSlash(r.value.version)
  {
    var parts := Split(Strip(m));
    if |parts| < 3 then None else Some(Identifier(parts[0], parts[1], parts[2]))
  }

  /** The request path `[version, namespace, action, format].join('/')`. */
  function Path(id: Identifier, format: string): (r: string)
    ensures r == id.version + "/" + id.namespace + "/" + id.action + "/" + format
  {
    var parts := [id.version, id.namespace, id.action, format];
    assert parts[1..][1..][1..] == [format];
    assert Join(parts[1..][1..]) == id.action + "/" + format;
    assert Join(parts[1..]) == id.namespace + "/" + id.action + "/" + format;
    Join(parts)
  }

  /** The key a namespace table is read at: `[action, version].join('/')`. */
  function TableKey(id: Identifier): (r: string)
    ensures r == id.action + "/" + id.version
  {
    var parts := [id.action, id.version];
    assert parts[1..] == [id.version] && Join(parts[1..]) == id.version;
    Join(parts)
  }

  /** Whether a call needs a handshake: yes when the namespace has no table
      that loads, otherwise the truthiness of the table's entry, so a missing
      entry (undefined) means no handshake. */
  predicate RequiresHandshake(tables: Tables, id: Identifier)
    ensures id.namespace in tables ==>
              (RequiresHandshake(tables, id) <==>
                 var key := id.action + "/" + id.version;
                 key in tables[id.namespace] && Truthy(tables[id.namespace][key]))
  {
    id.namespace !in tables || TruthyProp(Get(tables[id.namespace], TableKey(id)))
  }

  // ---------------------------------------------------------------------
  // Lemmas

  lemma {:induction false} SplitWithoutSlash(p: string)
    requires NoSlash(p)
    ensures Split(p) == [p]
  {
    if p != [] {
      assert NoSlash(p[1..]) by { assert forall c :: c in p[1..] ==> c in p; }
      SplitWithoutSlash(p[1..]);
      assert p == [p[0]] + p[1..];
    }
  }

  lemma {:induction false} SplitAfterSegment(p: string, t: string)
    requires NoSlash(p)
    ensures Split(p + "/" + t) == [p] + Split(t)
  {
    if p == [] {
      assert p + "/" + t == "/" + t;
      assert ("/" + t)[1..] == t;
    } else {
      assert NoSlash(p[1..]) by { assert forall c :: c in p[1..] ==> c in p; }
      SplitAfterSegment(p[1..], t);
      assert (p + "/" + t)[1..] == p[1..] + "/" + t;
      assert (p + "/" + t)[0] == p[0];
      assert [p[0]] + p[1..] == p;
    }
  }

  /** Splitting undoes joining slash-free pieces. */
  lemma {:induction false} SplitJoin(parts: seq<string>)
    requires |parts| >= 1
    requires forall i :: 0 <= i < |parts| ==> NoSlash(parts[i])
    ensures Split(Join(parts)) == parts
  {
    if |parts| == 1 {
      SplitWithoutSlash(parts[0]);
    } else {
      SplitJoin(parts[1..]);
      SplitAfterSegment(parts[0], Join(parts[1..]));
      assert [parts[0]] + parts[1..] == parts;
    }
  }

  /** Surrounding slashes are dropped exactly once: whatever sits between them,
      extra slashes included, is kept. */
  lemma StripOuterSlashes(x: string)
    ensures Strip("/" + x + "/") == x
  {
    assert ("/" + x + "/")[1..] == x + "/";
    assert (x + "/")[..|x|] == x;
  }

  /** A string without a leading or trailing slash is left as it is. */
  lemma StripKeepsInner(x: string)
    requires |x| > 0 ==> x[0] != '/' && x[|x| - 1] != '/'
    ensures Strip(x) == x
  {
  }

  /** A well-formed "namespace/action/version" parses to exactly its three
      parts. The namespace and version must be non-empty (an empty one would be
      taken for an outer slash and stripped); the action may be empty. */
  lemma ParseThreeParts(ns: string, action: string, version: string)
    requires NoSlash(ns) && NoSlash(action) && NoSlash(version)
    requires ns != [] && version != []
    ensures Parse(ns + "/" + action + "/" + version) == Some(Identifier(ns, action, version))
  {
    var m := ns + "/" + action + "/" + version;
    assert m[0] == ns[0] && m[|m| - 1] == version[|version| - 1];
    assert ns[0] in ns && version[|version| - 1] in version;
    StripKeepsInner(m);
    SplitJoin([ns, action, version]);
    JoinFirstThree([ns, action, version]);
    assert m + "" == m;
  }

  /** With more than three parts, the first three are taken and the rest is
      ignored: the parsed head is a prefix of the normalised string that ends
      at a slash or at its end. */
  lemma ParseTakesFirstThree(m: string)
    requires Parse(m).Some?
    ensures var id := Parse(m).value;
            var head := id.namespace + "/" + id.action + "/" + id.version;
            var s := Strip(m);
            head <= s && (|s| == |head| || s[|head|] == '/')
  {
    var s := Strip(m);
    var parts := Split(s);
    var head := parts[0] + "/" + parts[1] + "/" + parts[2];
    var tail := if |parts| == 3 then "" else "/" + Join(parts[3..]);
    JoinFirstThree(parts);
    assert s == head + tail;
    assert s[..|head|] == head;
  }

  lemma JoinFirstThree(parts: seq<string>)
    requires |parts| >= 3
    ensures Join(parts) == parts[0] + "/" + parts[1] + "/" + parts[2]
                           + (if |parts| == 3 then "" else "/" + Join(parts[3..]))
  {
    var r1, r2 := parts[1..], parts[2..];
    var tail := if |parts| == 3 then "" else "/" + Join(parts[3..]);
    assert r1[0] == parts[1] && r1[1..] == r2;
    if |parts| == 3 {
      assert Join(r2) == parts[2] + tail;
    } else {
      assert r2[0] == parts[2] && r2[1..] == parts[3..];
      assert Join(r2) == parts[2] + tail;
    }
    assert Join(r1) == parts[1] + "/" + (parts[2] + tail);
    assert Join(parts) == parts[0] + "/" + (parts[1] + "/" + (parts[2] + tail));
  }

  /** The request path splits back into version, namespace, action and format. */
  lemma PathSegments(id: Identifier, format: string)
    requires NoSlash(id.namespace) && NoSlash(id.action) && NoSlash(id.version)
    requires NoSlash(format)
    ensures Split(Path(id, format)) == [id.version, id.namespace, id.action, format]
  {
    SplitJoin([id.version, id.namespace, id.action, format]);
  }

  /** A namespace without a loadable table always needs a handshake; one whose
      table has no entry for the call never does. */
  lemma HandshakeDefaults(tables: Tables, id: Identifier)
    ensures id.namespace !in tables ==> RequiresHandshake(tables, id)
    ensures id.namespace in tables && TableKey(id) !in tables[id.namespace] ==> !RequiresHandshake(tables, id)
    ensures id.namespace in tables ==> (RequiresHandshake(tables, id) <==>
              TableKey(id) in tables[id.namespace] && Truthy(tables[id.namespace][TableKey(id)]))
  {
  }
}

// The Falabella Seller Center request builder (api/_falabella-client.js): parameter
// assembly, the canonical string that is signed, timestamp trimming, headers and
// the error response rules. The HMAC-SHA256 digest itself is a parameter.
module FalabellaClient {
  import opened Wrappers
  import opened Text
  import Sorting

  /** A JavaScript object of string values, as its entries in insertion order. */
  type Params = seq<(string, string)>

  function Keys(p: Params): (r: seq<string>)
    ensures |r| == |p| && forall i :: 0 <= i < |p| ==> r[i] == p[i].0
  {
    seq(|p|, i requires 0 <= i < |p| => p[i].0)
  }

  ghost predicate DistinctKeys(p: Params) {
    forall i, j :: 0 <= i < j < |p| ==> p[i].0 != p[j].0
  }

  /** `obj[k]`. */
  function Lookup(p: Params, k: string): (r: Option<string>)
    ensures r.Some? <==> k in Keys(p)
  {
    if p == [] then None
    else if p[0].0 == k then Some(p[0].1)
    else
      var r := Lookup(p[1..], k);
      assert Keys(p) == [p[0].0] + Keys(p[1..]);
      r
  }

  lemma KeysOfCons(e: (string, string), t: Params)
    ensures Keys([e] + t) == [e.0] + Keys(t)
  {
  }

  lemma DistinctOfCons(e: (string, string), t: Params)
    ensures DistinctKeys([e] + t) <==> e.0 !in Keys(t) && DistinctKeys(t)
  {
    var p := [e] + t;
    if DistinctKeys(p) {
      forall i, j | 0 <= i < j < |t| ensures t[i].0 != t[j].0 {
        assert p[i + 1] == t[i] && p[j + 1] == t[j];
      }
      forall i | 0 <= i < |t| ensures t[i].0 != e.0 {
        assert p[0] == e && p[i + 1] == t[i];
      }
    }
    if e.0 !in Keys(t) && DistinctKeys(t) {
      forall i, j | 0 <= i < j < |p| ensures p[i].0 != p[j].0 {
        if i > 0 {
          assert p[i] == t[i - 1];
        }
        assert p[j] == t[j - 1];
        assert Keys(t)[j - 1] == t[j - 1].0;
      }
    }
  }

  /** `obj[k] = v`: an existing key keeps its position, a new one goes last. */
  function Assign(p: Params, k: string, v: string): Params {
    if p == [] then [(k, v)]
    else if p[0].0 == k then [(k, v)] + p[1..]
    else [p[0]] + Assign(p[1..], k, v)
  }

  /** After `obj[k] = v`, `k` reads `v` and every other key reads as before. */
  lemma {:induction false} AssignLookup(p: Params, k: string, v: string)
    ensures forall x :: Lookup(Assign(p, k, v), x) == if x == k then Some(v) else Lookup(p, x)
  {
    if p != [] {
      var r := Assign(p, k, v);
      if p[0].0 == k {
        assert r[1..] == p[1..];
      } else {
        AssignLookup(p[1..], k, v);
        assert r[1..] == Assign(p[1..], k, v);
      }
    }
  }

  lemma AssignReads(p: Params, k: string, v: string)
    ensures Lookup(Assign(p, k, v), k) == Some(v)
  {
    AssignLookup(p, k, v);
  }

  /** The keys keep their order; a new key goes last. */
  lemma {:induction false} AssignKeys(p: Params, k: string, v: string)
    ensures Keys(Assign(p, k, v)) == if k in Keys(p) then Keys(p) else Keys(p) + [k]
  {
    if p != [] {
      assert p == [p[0]] + p[1..];
      KeysOfCons(p[0], p[1..]);
      if p[0].0 == k {
        KeysOfCons((k, v), p[1..]);
      } else {
        AssignKeys(p[1..], k, v);
        KeysOfCons(p[0], Assign(p[1..], k, v));
      }
    }
  }

  /** Assigning never makes a key appear twice. */
  lemma {:induction false} AssignDistinct(p: Params, k: string, v: string)
    ensures DistinctKeys(p) ==> DistinctKeys(Assign(p, k, v))
  {
    if p != [] && DistinctKeys(p) {
      assert p == [p[0]] + p[1..];
      DistinctOfCons(p[0], p[1..]);
      if p[0].0 == k {
        DistinctOfCons((k, v), p[1..]);
      } else {
        AssignDistinct(p[1..], k, v);
        AssignKeys(p[1..], k, v);
        DistinctOfCons(p[0], Assign(p[1..], k, v));
      }
    }
  }

  /** `{...base, ...extra}`: every entry of `extra` is assigned over `base`, in order. */
  function Spread(base: Params, extra: Params): (r: Params)
    ensures DistinctKeys(base) ==> DistinctKeys(r)
    ensures DistinctKeys(extra) ==>
      forall x :: Lookup(r, x) == if Lookup(extra, x).Some? then Lookup(extra, x) else Lookup(base, x)
    decreases |extra|
  {
    if extra == [] then base
    else
      AssignLookup(base, extra[0].0, extra[0].1);
      AssignDistinct(base, extra[0].0, extra[0].1);
      var r := Spread(Assign(base, extra[0].0, extra[0].1), extra[1..]);
      assert DistinctKeys(extra) ==> DistinctKeys(extra[1..]) by {
        if DistinctKeys(extra) {
          forall i, j | 0 <= i < j < |extra[1..]| ensures extra[1..][i].0 != extra[1..][j].0 {
            assert extra[1..][i] == extra[i + 1] && extra[1..][j] == extra[j + 1];
          }
        }
      }
      assert DistinctKeys(extra) ==> extra[0].0 !in Keys(extra[1..]);
      r
  }

  // ----- encodeURIComponent -----

  /** The characters `encodeURIComponent` leaves as they are. */
  predicate Unreserved(c: char) {
    ('A' <= c <= 'Z') || ('a' <= c <= 'z') || ('0' <= c <= '9')
    || c == '-' || c == '_' || c == '.' || c == '!' || c == '~' || c == '*'
    || c == '\'' || c == '(' || c == ')'
  }

  predicate IsUpperHex(c: char) { ('0' <= c <= '9') || ('A' <= c <= 'F') }

  function HexDigit(d: nat): (c: char)
    requires d < 16
    ensures IsUpperHex(c)
  {
    if d < 10 then ('0' as int + d) as char else ('A' as int + d - 10) as char
  }

  /** The UTF-8 encoding of one Unicode scalar value. */
  function Utf8(c: char): (r: seq<nat>)
    ensures 1 <= |r| <= 4 && forall i :: 0 <= i < |r| ==> r[i] < 256
  {
    var n := c as int;
    if n < 0x80 then [n]
    else if n < 0x800 then [0xC0 + n / 64, 0x80 + n % 64]
    else if n < 0x10000 then [0xE0 + n / 4096, 0x80 + (n / 64) % 64, 0x80 + n % 64]
    else [0xF0 + n / 262144, 0x80 + (n / 4096) % 64, 0x80 + (n / 64) % 64, 0x80 + n % 64]
  }

  /** `%XX` for every byte, with upper-case hex digits. */
  function PercentBytes(bs: seq<nat>): (r: string)
    requires forall i :: 0 <= i < |bs| ==> bs[i] < 256
    ensures |r| == 3 * |bs|
    ensures forall i :: 0 <= i < |r| ==> r[i] == '%' || IsUpperHex(r[i])
  {
    if bs == [] then ""
    else ['%', HexDigit(bs[0] / 16), HexDigit(bs[0] % 16)] + PercentBytes(bs[1..])
  }

  function EncodeChar(c: char): (r: string)
    ensures Unreserved(c) ==> r == [c]
    ensures !Unreserved(c) ==> |r| >= 3 && r[0] == '%'
    ensures forall i :: 0 <= i < |r| ==> Unreserved(r[i]) || r[i] == '%'
  {
    if Unreserved(c) then [c] else PercentBytes(Utf8(c))
  }

  /** `encodeURIComponent(s)`. */
  function Encode(s: string): (r: string)
    ensures forall i :: 0 <= i < |r| ==> Unreserved(r[i]) || r[i] == '%'
    ensures (forall i :: 0 <= i < |s| ==> Unreserved(s[i])) ==> r == s
  {
    if s == [] then "" else EncodeChar(s[0]) + Encode(s[1..])
  }

  /** Neither separator of the canonical string can appear inside an encoded key or
      value, so the `k=v&k=v` string has exactly one reading. */
  lemma EncodedHasNoSeparators(s: string)
    ensures '&' !in Encode(s) && '=' !in Encode(s)
  {
  }

  // ----- signRequest -----

  function SortedKeys(p: Params): seq<string> {
    Sorting.Sort(Keys(p), StrLe)
  }

  /** One `encodeURIComponent(k)=encodeURIComponent(params[k])` part. */
  function Part(p: Params, k: string): string {
    Encode(k) + "=" + Encode(Lookup(p, k).GetOr(""))
  }

  /** The string `signRequest` hands to HMAC: the parts in sorted key order, joined by `&`. */
  function Canonical(p: Params): string {
    var ks := SortedKeys(p);
    Join(seq(|ks|, i requires 0 <= i < |ks| => Part(p, ks[i])), "&")
  }

  lemma StrLeIsOrder()
    ensures Sorting.Total(StrLe) && Sorting.Transitive(StrLe) && Sorting.Antisymmetric(StrLe)
  {
    forall a, b ensures StrLe(a, b) || StrLe(b, a) { StrLeTotal(a, b); }
    forall a, b, c | StrLe(a, b) && StrLe(b, c) ensures StrLe(a, c) { StrLeTransitive(a, b, c); }
    forall a, b | StrLe(a, b) && StrLe(b, a) ensures a == b { StrLeAntisymmetric(a, b); }
  }

  /** The parts are in ascending key order and cover every key exactly once. */
  lemma SortedKeysSpec(p: Params)
    ensures Sorting.Sorted(SortedKeys(p), StrLe)
    ensures multiset(SortedKeys(p)) == multiset(Keys(p))
  {
    StrLeIsOrder();
    Sorting.SortSpec(Keys(p), StrLe);
  }

  lemma {:induction false} DistinctMultiset(s: seq<string>)
    requires forall i, j :: 0 <= i < j < |s| ==> s[i] != s[j]
    ensures forall x :: multiset(s)[x] == if x in s then 1 else 0
  {
    if s != [] {
      DistinctMultiset(s[1..]);
      assert s == [s[0]] + s[1..];
      assert s[0] !in s[1..];
      assert multiset(s) == multiset{s[0]} + multiset(s[1..]);
    }
  }

  /** Two objects with the same entries have the same canonical string, whatever
      order the entries were inserted in. */
  lemma CanonicalOrderIndependent(p: Params, q: Params)
    requires DistinctKeys(p) && DistinctKeys(q)
    requires forall k :: Lookup(p, k) == Lookup(q, k)
    ensures Canonical(p) == Canonical(q)
  {
    SameSortedKeys(p, q);
    var ks := SortedKeys(p);
    assert seq(|ks|, i requires 0 <= i < |ks| => Part(p, ks[i]))
        == seq(|ks|, i requires 0 <= i < |ks| => Part(q, ks[i]));
  }

  /** Two objects with the same entries list their keys in the same sorted order. */
  lemma SameSortedKeys(p: Params, q: Params)
    requires DistinctKeys(p) && DistinctKeys(q)
    requires forall k :: Lookup(p, k) == Lookup(q, k)
    ensures SortedKeys(p) == SortedKeys(q)
  {
    SameKeyMultiset(p, q);
    SortedKeysSpec(p);
    SortedKeysSpec(q);
    StrLeIsOrder();
    Sorting.SortedUnique(SortedKeys(p), SortedKeys(q), StrLe);
  }

  lemma SameKeyMultiset(p: Params, q: Params)
    requires DistinctKeys(p) && DistinctKeys(q)
    requires forall k :: Lookup(p, k) == Lookup(q, k)
    ensures multiset(Keys(p)) == multiset(Keys(q))
  {
    DistinctMultiset(Keys(p));
    DistinctMultiset(Keys(q));
    forall x ensures multiset(Keys(p))[x] == multiset(Keys(q))[x] {
      assert x in Keys(p) <==> Lookup(p, x).Some?;
    }
  }

  // ----- falabellaRequest -----

  /** `new Date().toISOString().replace(/\.\d{3}Z$/, 'Z')`. */
  function TrimMillis(iso: string): (r: string)
    ensures (|iso| >= 5 && iso[|iso| - 5] == '.' && IsDigit(iso[|iso| - 4]) && IsDigit(iso[|iso| - 3])
             && IsDigit(iso[|iso| - 2]) && iso[|iso| - 1] == 'Z')
            ==> r == iso[..|iso| - 5] + "Z"
    ensures !(|iso| >= 5 && iso[|iso| - 5] == '.' && IsDigit(iso[|iso| - 4]) && IsDigit(iso[|iso| - 3])
             && IsDigit(iso[|iso| - 2]) && iso[|iso| - 1] == 'Z')
            ==> r == iso
  {
    var n := |iso|;
    if n >= 5 && iso[n - 5] == '.' && IsDigit(iso[n - 4]) && IsDigit(iso[n - 3]) && IsDigit(iso[n - 2])
       && iso[n - 1] == 'Z'
    then iso[..n - 5] + "Z"
    else iso
  }

  /** A `toISOString` value loses exactly its milliseconds. */
  lemma TrimMillisExample()
    ensures TrimMillis("2024-05-01T10:20:30.123Z") == "2024-05-01T10:20:30Z"
  {
    var s := "2024-05-01T10:20:30.123Z";
    assert |s| == 24 && s[19] == '.' && s[20] == '1' && s[21] == '2' && s[22] == '3' && s[23] == 'Z';
    assert s[..19] == "2024-05-01T10:20:30";
  }

  /** The fixed authentication parameters, with the caller's `params` spread last. */
  function AllParams(action: string, version: string, timestamp: string, userId: string, params: Params): (r: Params)
    ensures DistinctKeys(r)
  {
    var base := [("Action", action), ("Format", "JSON"), ("Timestamp", timestamp),
                 ("UserID", userId), ("Version", version)];
    Spread(base, params)
  }

  /** The five authentication keys are always present; a caller parameter of the same
      name overrides the default, and every other caller parameter is passed through. */
  lemma AllParamsSpec(action: string, version: string, timestamp: string, userId: string, params: Params)
    requires DistinctKeys(params)
    ensures var r := AllParams(action, version, timestamp, userId, params);
      && Lookup(r, "Action") == OrElse(Lookup(params, "Action"), Some(action))
      && Lookup(r, "Format") == OrElse(Lookup(params, "Format"), Some("JSON"))
      && Lookup(r, "Timestamp") == OrElse(Lookup(params, "Timestamp"), Some(timestamp))
      && Lookup(r, "UserID") == OrElse(Lookup(params, "UserID"), Some(userId))
      && Lookup(r, "Version") == OrElse(Lookup(params, "Version"), Some(version))
      && forall k :: Lookup(params, k).Some? ==> Lookup(r, k) == Lookup(params, k)
  {
    var base := [("Action", action), ("Format", "JSON"), ("Timestamp", timestamp),
                 ("UserID", userId), ("Version", version)];
    BaseLookups(action, version, timestamp, userId);
    assert AllParams(action, version, timestamp, userId, params) == Spread(base, params);
  }

  lemma BaseLookups(action: string, version: string, timestamp: string, userId: string)
    ensures var base := [("Action", action), ("Format", "JSON"), ("Timestamp", timestamp),
                         ("UserID", userId), ("Version", version)];
      && Lookup(base, "Action") == Some(action)
      && Lookup(base, "Format") == Some("JSON")
      && Lookup(base, "Timestamp") == Some(timestamp)
      && Lookup(base, "UserID") == Some(userId)
      && Lookup(base, "Version") == Some(version)
  {
    var base := [("Action", action), ("Format", "JSON"), ("Timestamp", timestamp),
                 ("UserID", userId), ("Version", version)];
    assert base[1..] == [("Format", "JSON"), ("Timestamp", timestamp), ("UserID", userId), ("Version", version)];
    assert base[2..] == [("Timestamp", timestamp), ("UserID", userId), ("Version", version)];
    assert base[3..] == [("UserID", userId), ("Version", version)];
    assert base[4..] == [("Version", version)];
    assert "Action"[0] == 'A' && "Format"[0] == 'F' && "Timestamp"[0] == 'T' && "UserID"[0] == 'U' && "Version"[0] == 'V';
    assert Lookup(base[4..], "Version") == Some(version);
    assert Lookup(base[3..], "Version") == Some(version);
    assert Lookup(base[2..], "Version") == Some(version);
    assert Lookup(base[3..], "UserID") == Some(userId);
    assert Lookup(base[2..], "UserID") == Some(userId);
    assert Lookup(base[1..], "UserID") == Some(userId);
    assert Lookup(base[2..], "Timestamp") == Some(timestamp);
  }

  /** The query parameters sent: the signature is computed over all the others and
      then added under `Signature`. */
  function SignedParams(allParams: Params, apiKey: string, hmac: (string, string) -> string): (r: Params)
    ensures DistinctKeys(allParams) ==> DistinctKeys(r)
    ensures Lookup(r, "Signature") == Some(hmac(apiKey, Canonical(allParams)))
    ensures forall k :: k != "Signature" ==> Lookup(r, k) == Lookup(allParams, k)
  {
    var signature := hmac(apiKey, Canonical(allParams));
    AssignLookup(allParams, "Signature", signature);
    AssignReads(allParams, "Signature", signature);
    AssignDistinct(allParams, "Signature", signature);
    Assign(allParams, "Signature", signature)
  }

  /** The request headers; the XML content type is added only when a body is sent. */
  function Headers(userId: string, body: Option<string>): (r: Params)
    ensures Lookup(r, "User-Agent") == Some(userId + "/Node/18.x.x/PROPIA/FACO")
    ensures Lookup(r, "accept") == Some("application/json")
    ensures Lookup(r, "Content-Type").Some? <==> Truthy(body)
    ensures Truthy(body) ==> Lookup(r, "Content-Type") == Some("text/xml; charset=UTF-8")
  {
    var h := [("User-Agent", userId + "/Node/18.x.x/PROPIA/FACO"), ("accept", "application/json")];
    assert "User-Agent"[0] == 'U' && "accept"[0] == 'a' && "Content-Type"[0] == 'C';
    assert Lookup(h, "accept") == Some("application/json");
    AssignLookup(h, "Content-Type", "text/xml; charset=UTF-8");
    AssignReads(h, "Content-Type", "text/xml; charset=UTF-8");
    if Truthy(body) then Assign(h, "Content-Type", "text/xml; charset=UTF-8") else h
  }

  /** The `ErrorResponse.Head` fields used in the message. */
  datatype ErrorHead = ErrorHead(errorMessage: Option<string>, errorType: Option<string>, json: string)

  /** What `fetch` returned: the HTTP status, the raw text, and the parsed body's
      `ErrorResponse` (if any) together with the body itself. */
  datatype HttpResponse<T> = HttpResponse(status: nat, text: string, errorResponse: Option<ErrorHead>, data: T)

  datatype Outcome<T> = Data(data: T) | Raised(message: string)

  predicate HttpOk(status: nat) { 200 <= status <= 299 }

  /** The end of `falabellaRequest`: a non-OK status or an `ErrorResponse` body raises,
      anything else is returned as it is. */
  function Receive<T>(resp: HttpResponse<T>): (r: Outcome<T>)
    ensures r.Data? <==> HttpOk(resp.status) && resp.errorResponse.None?
    ensures r.Data? ==> r.data == resp.data
    ensures !HttpOk(resp.status) ==>
      r == Raised("Falabella API error " + NatToString(resp.status) + ": " + resp.text)
    ensures HttpOk(resp.status) && resp.errorResponse.Some? ==>
      var h := resp.errorResponse.value;
      r == Raised("Falabella API error: " + Or(h.errorMessage, Or(h.errorType, h.json)))
  {
    if !HttpOk(resp.status) then Raised("Falabella API error " + NatToString(resp.status) + ": " + resp.text)
    else if resp.errorResponse.Some? then
      var h := resp.errorResponse.value;
      Raised("Falabella API error: " + Or(h.errorMessage, Or(h.errorType, h.json)))
    else Data(resp.data)
  }
}

// The `.env.local` reader the scripts share (scripts/sync-incremental.mjs,
// scripts/sync-historico.mjs and scripts/backfill-wix-unpaid.mjs): the text is split into
// lines, every `KEY=value` line that is not a comment gives one entry, and
// `Object.fromEntries` keeps the last entry of a repeated key. Reading the file is I/O;
// its text is a parameter.
module DotEnv {
  import opened Wrappers
  import opened Text

  /** The first position of `c` in `s`. */
  function IndexOf(s: string, c: char): (i: nat)
    requires c in s
    ensures i < |s| && s[i] == c && c !in s[..i]
  {
    if s[0] == c then 0
    else
      assert c in s[1..] by { var k :| 0 <= k < |s| && s[k] == c; assert s[1..][k - 1] == c; }
      var j := IndexOf(s[1..], c);
      assert s[..j + 1] == [s[0]] + s[1..][..j];
      j + 1
  }

  /** `s.split(c)` for a one-character separator. */
  function Split(s: string, c: char): (r: seq<string>)
    ensures |r| > 0
    decreases |s|
  {
    if c !in s then [s]
    else
      var i := IndexOf(s, c);
      [s[..i]] + Split(s[i + 1..], c)
  }

  /** No part holds the separator. */
  lemma {:induction false} SplitParts(s: string, c: char)
    ensures forall i :: 0 <= i < |Split(s, c)| ==> c !in Split(s, c)[i]
    decreases |s|
  {
    if c in s {
      var i := IndexOf(s, c);
      SplitParts(s[i + 1..], c);
      var rest := Split(s[i + 1..], c);
      assert forall j :: 1 <= j < |Split(s, c)| ==> Split(s, c)[j] == rest[j - 1];
    }
  }

  /** Splitting and joining back with the same character gives the text again. */
  lemma {:induction false} SplitJoin(s: string, c: char)
    ensures Join(Split(s, c), [c]) == s
    decreases |s|
  {
    if c in s {
      var i := IndexOf(s, c);
      var rest := Split(s[i + 1..], c);
      SplitJoin(s[i + 1..], c);
      var parts := Split(s, c);
      assert parts == [s[..i]] + rest;
      assert parts[1..] == rest;
      assert s == s[..i] + [c] + s[i + 1..];
    }
  }

  /** `l.includes('=') && !l.startsWith('#')`. */
  predicate Kept(l: string) {
    '=' in l && !StartsWith(l, "#")
  }

  /** `const [k, ...v] = l.split('='); [k.trim(), v.join('=').trim()]`. */
  function Entry(l: string): (string, string) {
    var parts := Split(l, '=');
    (Trim(parts[0]), Trim(Join(parts[1..], "=")))
  }

  /** The entry of a line is the text before its first '=' and the text after it,
      both trimmed: a value keeps every later '='. */
  lemma EntrySpec(l: string)
    requires '=' in l
    ensures var i := IndexOf(l, '=');
      Entry(l) == (Trim(l[..i]), Trim(l[i + 1..]))
  {
    var parts := Split(l, '=');
    var i := IndexOf(l, '=');
    EntryParts(l);
    assert Entry(l) == (Trim(parts[0]), Trim(Join(parts[1..], "=")));
  }

  lemma EntryParts(l: string)
    requires '=' in l
    ensures var i := IndexOf(l, '=');
      Split(l, '=')[0] == l[..i] && Join(Split(l, '=')[1..], "=") == l[i + 1..]
  {
    SplitHead(l, '=');
    SplitJoin(l[IndexOf(l, '=') + 1..], '=');
    assert "=" == ['='];
  }

  /** A text with the separator splits into the part before its first occurrence and
      the parts of what follows it. */
  lemma SplitHead(s: string, c: char)
    requires c in s
    ensures var i := IndexOf(s, c);
      Split(s, c)[0] == s[..i] && Split(s, c)[1..] == Split(s[i + 1..], c)
  {
    var i := IndexOf(s, c);
    var rest := Split(s[i + 1..], c);
    assert Split(s, c) == [s[..i]] + rest;
    assert ([s[..i]] + rest)[1..] == rest;
  }

  /** The entries of the lines, in order: kept lines whose key is not empty. */
  function Entries(lines: seq<string>): (r: seq<(string, string)>)
    ensures |r| <= |lines|
    ensures forall e :: e in r ==> e.0 != ""
  {
    if lines == [] then []
    else
      var rest := Entries(lines[1..]);
      var e := Entry(lines[0]);
      if Kept(lines[0]) && e.0 != "" then [e] + rest else rest
  }

  /** The entry list `Object.fromEntries` receives. */
  function Parse(text: string): seq<(string, string)> {
    Entries(Split(text, '\n'))
  }

  /** Every entry comes from a kept line, and every kept line with a key gives its
      entry; comment lines and lines without '=' give nothing. */
  lemma {:induction false} EntriesSpec(lines: seq<string>)
    ensures forall e :: e in Entries(lines) ==> exists l :: l in lines && Kept(l) && Entry(l) == e
    ensures forall l :: l in lines && Kept(l) && Entry(l).0 != "" ==> Entry(l) in Entries(lines)
    ensures forall l :: l in lines && StartsWith(l, "#") ==> !Kept(l)
  {
    if lines != [] {
      EntriesSpec(lines[1..]);
      forall l | l in lines && Kept(l) && Entry(l).0 != "" ensures Entry(l) in Entries(lines) {
        if l != lines[0] {
          assert l in lines[1..];
        }
      }
      forall e | e in Entries(lines) ensures exists l :: l in lines && Kept(l) && Entry(l) == e {
        if !(Kept(lines[0]) && Entry(lines[0]).0 != "" && e == Entry(lines[0])) {
          assert e in Entries(lines[1..]);
          var l :| l in lines[1..] && Kept(l) && Entry(l) == e;
          assert l in lines;
        }
      }
    }
  }

  /** `env[k]` on `Object.fromEntries(entries)`: the value of the last entry with the
      key, or undefined. */
  function Lookup(env: seq<(string, string)>, k: string): Option<string> {
    if env == [] then None
    else if env[|env| - 1].0 == k then Some(env[|env| - 1].1)
    else Lookup(env[..|env| - 1], k)
  }

  /** A key has no value exactly when no entry carries it, and otherwise the value of
      its last entry. */
  lemma {:induction false} LookupSpec(env: seq<(string, string)>, k: string)
    ensures Lookup(env, k).None? <==> forall i :: 0 <= i < |env| ==> env[i].0 != k
    ensures Lookup(env, k).Some? ==>
      exists i :: 0 <= i < |env| && env[i] == (k, Lookup(env, k).value) && forall j :: i < j < |env| ==> env[j].0 != k
  {
    if env != [] && env[|env| - 1].0 != k {
      var init := env[..|env| - 1];
      LookupSpec(init, k);
      assert forall i :: 0 <= i < |init| ==> init[i] == env[i];
    }
  }

  /** `names.filter(k => !env[k])`: the required names with no value or an empty one. */
  function Missing(env: seq<(string, string)>, names: seq<string>): (r: seq<string>)
    ensures |r| <= |names|
    ensures forall x :: x in r <==> x in names && !Truthy(Lookup(env, x))
  {
    if names == [] then []
    else
      var rest := Missing(env, names[1..]);
      if !Truthy(Lookup(env, names[0])) then [names[0]] + rest else rest
  }
}

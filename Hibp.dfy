/** Grouping accounts by the first five hex digits of the SHA-1 digest of
    their password, as a "have I been pwned" range query needs. SHA-1
    itself is a parameter: `hash` maps a password to its digest printed
    in upper-case hex. */
module Hibp {
  import opened Accounts

  predicate IsUpperHexDigit(c: char)
  {
    '0' <= c <= '9' || 'A' <= c <= 'F'
  }

  /** A SHA-1 digest formatted with `{:X}`: 40 upper-case hex digits. */
  type Digest = d: string | |d| == 40 && forall i :: 0 <= i < |d| ==> IsUpperHexDigit(d[i])
    witness "0000000000000000000000000000000000000000"

  /** Length of the prefix sent to the range API (`split_off(5)`). */
  const PREFIX_LENGTH: nat := 5

  /** `(prefix, suffix, account)` as built by `all_sha1`. */
  type Hashed = (string, string, Account)

  /** `(suffix, account)`, one entry of a bucket. */
  type Entry = (string, Account)

  type Buckets = map<string, seq<Entry>>

  /** `sha1`: the digest of the password, cut after its fifth character. */
  function Sha1(hash: string -> Digest, account: Account): (r: (string, string))
    ensures |r.0| == PREFIX_LENGTH && |r.1| == 40 - PREFIX_LENGTH
    ensures r.0 + r.1 == hash(account.password)
  {
    var digest := hash(account.password);
    (digest[..PREFIX_LENGTH], digest[PREFIX_LENGTH..])
  }

  /** `all_sha1`: one triple per account, in input order (the parallel map
      is collected in order). */
  function AllSha1(hash: string -> Digest, accounts: seq<Account>): (r: seq<Hashed>)
    ensures |r| == |accounts|
    ensures forall i :: 0 <= i < |r| ==>
      r[i].0 + r[i].1 == hash(accounts[i].password)
      && |r[i].0| == PREFIX_LENGTH && r[i].2 == accounts[i]
  {
    if accounts == [] then []
    else
      var last := accounts[|accounts| - 1];
      var (prefix, suffix) := Sha1(hash, last);
      AllSha1(hash, accounts[..|accounts| - 1]) + [(prefix, suffix, last)]
  }

  /** One step of the loop in `sha1_by_prefix`: `entry(prefix)` followed by
      `and_modify(push)` when the key is present and `or_insert(vec![..])`
      when it is not. */
  function Insert(m: Buckets, prefix: string, e: Entry): (m': Buckets)
    ensures m'.Keys == m.Keys + {prefix}
    ensures m'[prefix] == (if prefix in m then m[prefix] else []) + [e]
    ensures forall k :: k in m && k != prefix ==> m'[k] == m[k]
  {
    if prefix in m then m[prefix := m[prefix] + [e]] else m[prefix := [e]]
  }

  /** The map `sha1_by_prefix` has built after visiting `hs` in order. */
  function Group(hs: seq<Hashed>): (m: Buckets)
    ensures forall k :: k in m ==> m[k] != []
    ensures forall i :: 0 <= i < |hs| ==> hs[i].0 in m
  {
    if hs == [] then map[]
    else
      var h := hs[|hs| - 1];
      Insert(Group(hs[..|hs| - 1]), h.0, (h.1, h.2))
  }

  /** The entries of `hs` whose prefix is `prefix`, in input order. */
  function Matching(hs: seq<Hashed>, prefix: string): seq<Entry>
  {
    if hs == [] then []
    else
      var h := hs[|hs| - 1];
      Matching(hs[..|hs| - 1], prefix) + (if h.0 == prefix then [(h.1, h.2)] else [])
  }

  /** The bucket for a prefix is exactly the entries with that prefix, in
      input order; a prefix no entry has gets no bucket. */
  lemma {:induction false} GroupIsMatching(hs: seq<Hashed>)
    ensures forall k :: k in Group(hs) <==> Matching(hs, k) != []
    ensures forall k :: k in Group(hs) ==> Group(hs)[k] == Matching(hs, k)
    decreases |hs|
  {
    if hs != [] {
      GroupIsMatching(hs[..|hs| - 1]);
    }
  }

  /** Some entry has prefix `k` exactly when `Matching(hs, k)` is non-empty. */
  lemma {:induction false} MatchingNonEmpty(hs: seq<Hashed>, k: string)
    ensures Matching(hs, k) != [] <==> exists i :: 0 <= i < |hs| && hs[i].0 == k
    decreases |hs|
  {
    if hs != [] {
      var init := hs[..|hs| - 1];
      MatchingNonEmpty(init, k);
      if exists i :: 0 <= i < |init| && init[i].0 == k {
        var i :| 0 <= i < |init| && init[i].0 == k;
        assert hs[i].0 == k;
      }
      if exists i :: 0 <= i < |hs| && hs[i].0 == k {
        var i :| 0 <= i < |hs| && hs[i].0 == k;
        if i < |init| {
          assert init[i].0 == k;
        }
      }
    }
  }

  /** Entry `i` is in the bucket of its own prefix. */
  lemma {:induction false} MatchingContains(hs: seq<Hashed>, i: nat)
    requires i < |hs|
    ensures (hs[i].1, hs[i].2) in Matching(hs, hs[i].0)
    decreases |hs|
  {
    var init := hs[..|hs| - 1];
    if i < |init| {
      MatchingContains(init, i);
      assert init[i] == hs[i];
    }
  }

  /** Total number of entries over all buckets. */
  ghost function TotalSize(m: Buckets): nat
    decreases |m|
  {
    if m == map[] then 0
    else
      var k :| k in m;
      assert |m - {k}| < |m| by {
        assert m.Keys - {k} == (m - {k}).Keys;
      }
      |m[k]| + TotalSize(m - {k})
  }

  /** `TotalSize` does not depend on which bucket is counted first. */
  lemma {:induction false} TotalSizeRemove(m: Buckets, k: string)
    requires k in m
    ensures TotalSize(m) == |m[k]| + TotalSize(m - {k})
    decreases |m|
  {
    var k' :| k' in m && TotalSize(m) == |m[k']| + TotalSize(m - {k'});
    if k' != k {
      var m1, m2 := m - {k'}, m - {k};
      assert m1.Keys == m.Keys - {k'} && m2.Keys == m.Keys - {k};
      assert |m1| < |m| && |m2| < |m|;
      TotalSizeRemove(m1, k);
      TotalSizeRemove(m2, k');
      assert m1 - {k} == m2 - {k'};
    }
  }

  /** Each insertion adds exactly one entry. */
  lemma TotalSizeInsert(m: Buckets, prefix: string, e: Entry)
    ensures TotalSize(Insert(m, prefix, e)) == TotalSize(m) + 1
  {
    var m' := Insert(m, prefix, e);
    TotalSizeRemove(m', prefix);
    if prefix in m {
      TotalSizeRemove(m, prefix);
      assert m' - {prefix} == m - {prefix};
    } else {
      assert m' - {prefix} == m;
    }
  }

  /** The bucket lengths add up to the number of entries. */
  lemma {:induction false} GroupSize(hs: seq<Hashed>)
    ensures TotalSize(Group(hs)) == |hs|
    decreases |hs|
  {
    if hs != [] {
      var h := hs[|hs| - 1];
      GroupSize(hs[..|hs| - 1]);
      TotalSizeInsert(Group(hs[..|hs| - 1]), h.0, (h.1, h.2));
    }
  }

  /** What `sha1_by_prefix` returns. */
  function ByPrefix(hash: string -> Digest, accounts: seq<Account>): Buckets
  {
    Group(AllSha1(hash, accounts))
  }

  /** The keys are exactly the prefixes of the accounts' digests, and no
      bucket is empty. */
  lemma ByPrefixKeys(hash: string -> Digest, accounts: seq<Account>, k: string)
    ensures k in ByPrefix(hash, accounts) <==>
      exists i :: 0 <= i < |accounts| && Sha1(hash, accounts[i]).0 == k
    ensures k in ByPrefix(hash, accounts) ==> ByPrefix(hash, accounts)[k] != []
  {
    var hs := AllSha1(hash, accounts);
    GroupIsMatching(hs);
    MatchingNonEmpty(hs, k);
    forall i | 0 <= i < |accounts|
      ensures hs[i].0 == Sha1(hash, accounts[i]).0
    {
      var (p, s) := Sha1(hash, accounts[i]);
      assert hs[i].0 + hs[i].1 == p + s;
      assert hs[i].0 == (p + s)[..PREFIX_LENGTH] == p;
    }
  }

  /** Every account sits, with the suffix of its digest, in the bucket of
      its prefix. */
  lemma AccountInItsBucket(hash: string -> Digest, accounts: seq<Account>, i: nat)
    requires i < |accounts|
    ensures var (p, s) := Sha1(hash, accounts[i]);
      p in ByPrefix(hash, accounts) && (s, accounts[i]) in ByPrefix(hash, accounts)[p]
  {
    var hs := AllSha1(hash, accounts);
    var (p, s) := Sha1(hash, accounts[i]);
    assert hs[i].0 + hs[i].1 == p + s;
    assert hs[i].0 == (p + s)[..PREFIX_LENGTH] == p;
    assert hs[i].1 == (p + s)[PREFIX_LENGTH..] == s;
    MatchingContains(hs, i);
    GroupIsMatching(hs);
  }

  /** Each bucket lists its accounts in input order. */
  lemma BucketsInInputOrder(hash: string -> Digest, accounts: seq<Account>, k: string)
    requires k in ByPrefix(hash, accounts)
    ensures ByPrefix(hash, accounts)[k] == Matching(AllSha1(hash, accounts), k)
  {
    GroupIsMatching(AllSha1(hash, accounts));
  }

  /** No account is lost or duplicated: the bucket lengths sum to the
      number of accounts. */
  lemma ByPrefixSize(hash: string -> Digest, accounts: seq<Account>)
    ensures TotalSize(ByPrefix(hash, accounts)) == |accounts|
  {
    GroupSize(AllSha1(hash, accounts));
  }

  /** `sha1_by_prefix`: fills a map by visiting the hashed accounts in
      order. */
  method Sha1ByPrefix(hash: string -> Digest, accounts: seq<Account>) returns (m: Buckets)
    ensures m == ByPrefix(hash, accounts)
  {
    var all := AllSha1(hash, accounts);
    m := map[];
    for i := 0 to |all|
      invariant m == Group(all[..i])
    {
      var (prefix, suffix, account) := all[i];
      assert all[..i + 1][..i] == all[..i];
      if prefix in m {
        m := m[prefix := m[prefix] + [(suffix, account)]];
      } else {
        m := m[prefix := [(suffix, account)]];
      }
    }
    assert all[..|all|] == all;
  }
}

/** Accounts of the password checker, given on the command line as
    `login:password`. */
module Accounts {
  import opened Common

  datatype Account = Account(login: string, password: string)

  /** `Account::new`: both strings are stored verbatim. */
  function New(login: string, password: string): (a: Account)
    ensures a.login == login && a.password == password
  {
    Account(login, password)
  }

  /** `str::split_once(':')`: the text before the first colon and the text
      after it, or `None` when there is no colon. */
  function SplitAtFirstColon(s: string): (r: Option<(string, string)>)
    ensures r.None? <==> ':' !in s
    ensures r.Some? ==> r.value.0 + [':'] + r.value.1 == s && ':' !in r.value.0
  {
    if s == [] then None
    else if s[0] == ':' then
      assert [] + [':'] + s[1..] == s;
      Some(([], s[1..]))
    else
      match SplitAtFirstColon(s[1..])
      case None =>
        assert s == [s[0]] + s[1..];
        None
      case Some(parts) =>
        assert [s[0]] + parts.0 + [':'] + parts.1 == [s[0]] + (parts.0 + [':'] + parts.1);
        Some(([s[0]] + parts.0, parts.1))
  }

  /** `Account::from_string`: the login is the text before the first colon
      and the password everything after it. A string without a colon makes
      `unwrap` panic, which is `None` here. */
  function FromString(s: string): (r: Option<Account>)
    ensures r.None? <==> ':' !in s
    ensures r.Some? ==> r.value.login + [':'] + r.value.password == s
    ensures r.Some? ==> ':' !in r.value.login
  {
    match SplitAtFirstColon(s)
    case None => None
    case Some(parts) => Some(New(parts.0, parts.1))
  }

  /** Splitting `l + ":" + p` at a colon-free prefix can only give back `l`
      and `p`. */
  lemma ColonSplitUnique(l: string, p: string, l': string, p': string)
    requires ':' !in l && ':' !in l'
    requires l + [':'] + p == l' + [':'] + p'
    ensures l == l' && p == p'
  {
    var s := l + [':'] + p;
    assert s[|l|] == ':';
    assert s[|l'|] == ':';
    assert |l| == |l'|;
    assert l == s[..|l|] == l';
    assert p == s[|l| + 1..] == p';
  }

  /** Parsing the text form of an account whose login has no colon gives the
      account back; the password may hold colons of its own. */
  lemma FromStringOfNew(l: string, p: string)
    requires ':' !in l
    ensures FromString(l + [':'] + p) == Some(New(l, p))
  {
    var r := FromString(l + [':'] + p);
    assert ':' in l + [':'] + p by {
      assert (l + [':'] + p)[|l|] == ':';
    }
    ColonSplitUnique(l, p, r.value.login, r.value.password);
  }
}

/** Account selection of the command line (`_get_accounts`): an order-preserving
    pipeline of three optional filters over the configured accounts. */
module Accounts {
  import opened Wrappers
  import opened Strings
  import opened Seqs

  /** The two fields of an account that selection looks at. */
  datatype Account = Account(name: string, accountType: string)

  /** A keyword or exclude argument is either a plain substring or, written
      between slashes, a regular expression. */
  datatype NameFilter = Substring(text: string) | Pattern(regex: string)

  /** `s.startswith('/') and s.endswith('/')`; the one-character string "/" qualifies. */
  predicate SlashDelimited(s: string)
  {
    |s| > 0 && s[0] == '/' && s[|s| - 1] == '/'
  }

  /** A slash-delimited argument is a pattern made of the text strictly between
      the slashes (`s[1:-1]`, empty for "/"); any other argument is a substring. */
  function ParseNameFilter(s: string): (f: NameFilter)
    ensures f.Pattern? <==> SlashDelimited(s)
    ensures f.Pattern? ==> (s == "/" && f.regex == "") || s == "/" + f.regex + "/"
    ensures f.Substring? ==> f.text == s
  {
    if SlashDelimited(s) then
      if |s| >= 2 then
        assert s == [s[0]] + s[1..|s| - 1] + [s[|s| - 1]];
        Pattern(s[1..|s| - 1])
      else Pattern("")
    else Substring(s)
  }

  /** Whether a name is hit by a filter; `search(pattern, name)` stands for
      `re.compile(pattern).search(name)` being truthy. */
  predicate NameMatches(f: NameFilter, name: string, search: (string, string) -> bool)
  {
    match f
    case Substring(text) => Contains(name, text)
    case Pattern(regex) => search(regex, name)
  }

  /** The three optional criteria combined: an account is selected when it matches
      the keyword, is not hit by the exclude argument, and its type contains the
      type argument. An absent argument imposes nothing. */
  predicate Selected(acc: Account, exclude: Option<string>, keyword: Option<string>,
                     accountType: Option<string>, search: (string, string) -> bool)
  {
    && (keyword.Some? ==> NameMatches(ParseNameFilter(keyword.value), acc.name, search))
    && (exclude.Some? ==> !NameMatches(ParseNameFilter(exclude.value), acc.name, search))
    && (accountType.Some? ==> Contains(acc.accountType, accountType.value))
  }

  /** `_get_accounts`: keyword filter, then exclude filter, then type filter, each
      keeping the order of its input. The result is a subsequence of `accounts`
      that keeps each selected account as often as it occurs and drops the rest. */
  function GetAccounts(accounts: seq<Account>, exclude: Option<string>, keyword: Option<string>,
                       accountType: Option<string>, search: (string, string) -> bool): (r: seq<Account>)
    ensures IsSubsequence(r, accounts)
    ensures forall acc ::
              multiset(r)[acc] == if Selected(acc, exclude, keyword, accountType, search) then multiset(accounts)[acc] else 0
  {
    var byKeyword :=
      if keyword.Some? then Filter(accounts, (acc: Account) => NameMatches(ParseNameFilter(keyword.value), acc.name, search))
      else accounts;
    var byExclude :=
      if exclude.Some? then Filter(byKeyword, (acc: Account) => !NameMatches(ParseNameFilter(exclude.value), acc.name, search))
      else byKeyword;
    var byType :=
      if accountType.Some? then Filter(byExclude, (acc: Account) => Contains(acc.accountType, accountType.value))
      else byExclude;
    SubsequenceReflexive(accounts);
    SubsequenceReflexive(byKeyword);
    SubsequenceReflexive(byExclude);
    SubsequenceTransitive(byExclude, byKeyword, accounts);
    SubsequenceTransitive(byType, byExclude, accounts);
    byType
  }

  /** With a plain keyword and nothing else, the result is exactly the accounts
      whose name contains the keyword, in their original order. */
  lemma PlainKeywordSelectsByName(accounts: seq<Account>, keyword: string, search: (string, string) -> bool)
    requires !SlashDelimited(keyword)
    ensures GetAccounts(accounts, None, Some(keyword), None, search)
         == Filter(accounts, (acc: Account) => Contains(acc.name, keyword))
  {
    FilterCongruent(accounts, (acc: Account) => NameMatches(ParseNameFilter(keyword), acc.name, search),
                    (acc: Account) => Contains(acc.name, keyword));
  }

  /** A slash-delimited keyword selects exactly the accounts the pattern between
      the slashes finds in their name. */
  lemma PatternKeywordSelectsBySearch(accounts: seq<Account>, pattern: string, search: (string, string) -> bool)
    ensures GetAccounts(accounts, None, Some("/" + pattern + "/"), None, search)
         == Filter(accounts, (acc: Account) => search(pattern, acc.name))
  {
    var kw := "/" + pattern + "/";
    assert SlashDelimited(kw);
    assert kw[1..|kw| - 1] == pattern;
    FilterCongruent(accounts, (acc: Account) => NameMatches(ParseNameFilter(kw), acc.name, search),
                    (acc: Account) => search(pattern, acc.name));
  }

  /** The empty keyword is contained in every name, so it selects every account. */
  lemma EmptyKeywordSelectsAll(accounts: seq<Account>, search: (string, string) -> bool)
    ensures GetAccounts(accounts, None, Some(""), None, search) == accounts
  {
    forall acc: Account ensures Contains(acc.name, "") {
      EmptyIsContained(acc.name);
    }
    FilterAll(accounts, (acc: Account) => NameMatches(ParseNameFilter(""), acc.name, search));
  }

  /** Exclusion removes exactly the accounts the exclude argument hits. */
  lemma ExcludeRemovesExactly(accounts: seq<Account>, exclude: string, search: (string, string) -> bool)
    ensures GetAccounts(accounts, Some(exclude), None, None, search)
         == Filter(accounts, (acc: Account) => !NameMatches(ParseNameFilter(exclude), acc.name, search))
  {
  }

  /** The type filter keeps exactly the accounts whose type contains the argument. */
  lemma TypeFilterKeepsMatchingTypes(accounts: seq<Account>, accountType: string, search: (string, string) -> bool)
    ensures GetAccounts(accounts, None, None, Some(accountType), search)
         == Filter(accounts, (acc: Account) => Contains(acc.accountType, accountType))
  {
  }

  /** The pipeline of three filters is a single filter by `Selected`. */
  lemma {:induction false} GetAccountsIsOneFilter(accounts: seq<Account>, exclude: Option<string>, keyword: Option<string>,
                                                  accountType: Option<string>, search: (string, string) -> bool)
    ensures GetAccounts(accounts, exclude, keyword, accountType, search)
         == Filter(accounts, (acc: Account) => Selected(acc, exclude, keyword, accountType, search))
  {
    var kp := (acc: Account) => keyword.Some? ==> NameMatches(ParseNameFilter(keyword.value), acc.name, search);
    var ep := (acc: Account) => exclude.Some? ==> !NameMatches(ParseNameFilter(exclude.value), acc.name, search);
    var tp := (acc: Account) => accountType.Some? ==> Contains(acc.accountType, accountType.value);
    var kep := (acc: Account) => kp(acc) && ep(acc);
    var sel := (acc: Account) => Selected(acc, exclude, keyword, accountType, search);
    var byKeyword :=
      if keyword.Some? then Filter(accounts, (acc: Account) => NameMatches(ParseNameFilter(keyword.value), acc.name, search))
      else accounts;
    var byExclude :=
      if exclude.Some? then Filter(byKeyword, (acc: Account) => !NameMatches(ParseNameFilter(exclude.value), acc.name, search))
      else byKeyword;
    if keyword.Some? {
      FilterCongruent(accounts, (acc: Account) => NameMatches(ParseNameFilter(keyword.value), acc.name, search), kp);
    } else {
      FilterAll(accounts, kp);
    }
    assert byKeyword == Filter(accounts, kp);
    if exclude.Some? {
      FilterCongruent(byKeyword, (acc: Account) => !NameMatches(ParseNameFilter(exclude.value), acc.name, search), ep);
    } else {
      FilterAll(byKeyword, ep);
    }
    assert byExclude == Filter(byKeyword, ep);
    FilterFilter(accounts, kp, ep, kep);
    if accountType.Some? {
      FilterCongruent(byExclude, (acc: Account) => Contains(acc.accountType, accountType.value), tp);
    } else {
      FilterAll(byExclude, tp);
    }
    FilterFilter(accounts, kep, tp, sel);
  }
}

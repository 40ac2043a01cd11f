/** Contribution metrics: commits counted per author, and the pony factor read off the sorted counts. */
module PonyFactor {
  import opened GitLog

  datatype Contributor = Contributor(key: string, name: string, email: string, commitCount: nat)

  /** The patterns that recognise bots are a parameter. */
  type BotTest = (string, string) -> bool

  function AuthorKey(c: GitCommit): string {
    c.author.name + "<" + c.author.email + ">"
  }

  predicate Counted(c: GitCommit, isBot: BotTest) {
    !isBot(c.author.name, c.author.email)
  }

  /** How many counted commits the authors named by `keys` made. */
  function CommitsBy(commits: seq<GitCommit>, isBot: BotTest, keys: set<string>): nat {
    if commits == [] then 0
    else
      var c := commits[|commits| - 1];
      CommitsBy(commits[..|commits| - 1], isBot, keys) + (if Counted(c, isBot) && AuthorKey(c) in keys then 1 else 0)
  }

  function CountedCommits(commits: seq<GitCommit>, isBot: BotTest): nat {
    if commits == [] then 0
    else CountedCommits(commits[..|commits| - 1], isBot) + (if Counted(commits[|commits| - 1], isBot) then 1 else 0)
  }

  /******* The list of contributors *******/

  function KeysOf(cs: seq<Contributor>): set<string> {
    if cs == [] then {} else {cs[0].key} + KeysOf(cs[1..])
  }

  /** One entry per author, each with at least one commit. */
  predicate Listed(cs: seq<Contributor>) {
    cs != [] ==> cs[0].key !in KeysOf(cs[1..]) && cs[0].commitCount > 0 && Listed(cs[1..])
  }

  /** One more commit of `c`'s author, who joins at the end if new. */
  function Bump(cs: seq<Contributor>, c: GitCommit): seq<Contributor> {
    if cs == [] then [Contributor(AuthorKey(c), c.author.name, c.author.email, 1)]
    else if cs[0].key == AuthorKey(c) then [cs[0].(commitCount := cs[0].commitCount + 1)] + cs[1..]
    else [cs[0]] + Bump(cs[1..], c)
  }

  /** The map of contributors in insertion order. */
  function Tallied(commits: seq<GitCommit>, isBot: BotTest): seq<Contributor> {
    if commits == [] then []
    else
      var c := commits[|commits| - 1];
      var before := Tallied(commits[..|commits| - 1], isBot);
      if Counted(c, isBot) then Bump(before, c) else before
  }

  /** A stable sort by descending count. */
  function Insert(c: Contributor, cs: seq<Contributor>): seq<Contributor> {
    if cs == [] || c.commitCount >= cs[0].commitCount then [c] + cs else [cs[0]] + Insert(c, cs[1..])
  }

  function SortedByCommits(cs: seq<Contributor>): seq<Contributor> {
    if cs == [] then [] else Insert(cs[0], SortedByCommits(cs[1..]))
  }

  predicate Descending(cs: seq<Contributor>) {
    forall i, j :: 0 <= i < j < |cs| ==> cs[i].commitCount >= cs[j].commitCount
  }

  function Total(cs: seq<Contributor>): nat {
    if cs == [] then 0 else cs[0].commitCount + Total(cs[1..])
  }

  /** The commits of those contributors that `keys` names. */
  function Held(cs: seq<Contributor>, keys: set<string>): nat {
    if cs == [] then 0 else (if cs[0].key in keys then cs[0].commitCount else 0) + Held(cs[1..], keys)
  }

  /******* The program *******/

  /** The lookup by key: the length of the list when the key is not there. */
  function Find(cs: seq<Contributor>, key: string): (i: nat)
    ensures i <= |cs| && (i < |cs| ==> cs[i].key == key)
  {
    if cs == [] || cs[0].key == key then 0 else 1 + Find(cs[1..], key)
  }

  lemma {:induction false} BumpAt(cs: seq<Contributor>, c: GitCommit)
    ensures var key, entry := AuthorKey(c), Contributor(AuthorKey(c), c.author.name, c.author.email, 0);
            var grown := if Find(cs, key) == |cs| then cs + [entry] else cs;
            var i := Find(grown, key);
            i < |grown| && Bump(cs, c) == grown[i := grown[i].(commitCount := grown[i].commitCount + 1)]
  {
    if cs != [] && cs[0].key != AuthorKey(c) {
      BumpAt(cs[1..], c);
      var key, entry := AuthorKey(c), Contributor(AuthorKey(c), c.author.name, c.author.email, 0);
      var grown := if Find(cs, key) == |cs| then cs + [entry] else cs;
      assert grown[1..] == if Find(cs[1..], key) == |cs[1..]| then cs[1..] + [entry] else cs[1..];
    }
  }

  /** The loop of `calculateMetrics` over the commits, as far as the counts go, and the sort after it. */
  method CalculateMetrics(commits: seq<GitCommit>, isBot: BotTest) returns (contributorActivity: seq<Contributor>)
    ensures contributorActivity == SortedByCommits(Tallied(commits, isBot))
  {
    var contributors: seq<Contributor> := [];
    for n := 0 to |commits|
      invariant contributors == Tallied(commits[..n], isBot)
    {
      var c := commits[n];
      assert commits[..n + 1][..n] == commits[..n];
      if isBot(c.author.name, c.author.email) {
        continue;
      }
      var authorKey := AuthorKey(c);
      BumpAt(contributors, c);
      if Find(contributors, authorKey) == |contributors| {
        contributors := contributors + [Contributor(authorKey, c.author.name, c.author.email, 0)];
      }
      var i := Find(contributors, authorKey);
      contributors := contributors[i := contributors[i].(commitCount := contributors[i].commitCount + 1)];
    }
    assert commits[..|commits|] == commits;
    contributorActivity := SortedByCommits(contributors);
  }

  /** The least number of leading contributors that hold half of the commits. */
  predicate LeadsHalf(cs: seq<Contributor>, factor: nat) {
    && factor <= |cs| && 2 * Total(cs[..factor]) >= Total(cs)
    && (cs != [] ==> factor > 0) && forall k :: 1 <= k < factor ==> 2 * Total(cs[..k]) < Total(cs)
  }

  lemma {:induction false} TotalLast(cs: seq<Contributor>, n: nat)
    requires n < |cs|
    ensures Total(cs[..n + 1]) == Total(cs[..n]) + cs[n].commitCount
  {
    if n > 0 {
      TotalLast(cs[1..], n - 1);
      assert cs[..n + 1][1..] == cs[1..][..n] && cs[..n][1..] == cs[1..][..n - 1];
    } else {
      assert cs[..1][1..] == [] && Total(cs[..1]) == cs[0].commitCount + Total(cs[..1][1..]);
    }
  }

  /** `calculatePonyFactor`; half of the total is compared with its double, exactly. */
  method CalculatePonyFactor(contributors: seq<Contributor>)
    returns (ponyFactor: nat, topContributors: seq<Contributor>)
    ensures LeadsHalf(contributors, ponyFactor)
    ensures topContributors == contributors[..ponyFactor]
  {
    var totalCommits := 0;
    for n := 0 to |contributors|
      invariant totalCommits == Total(contributors[..n])
    {
      TotalLast(contributors, n);
      totalCommits := totalCommits + contributors[n].commitCount;
    }
    assert contributors[..|contributors|] == contributors;

    var cumulativeCommits := 0;
    ponyFactor, topContributors := 0, [];
    for n := 0 to |contributors|
      invariant ponyFactor == n && cumulativeCommits == Total(contributors[..n]) && topContributors == contributors[..n]
      invariant forall k :: 1 <= k <= n ==> 2 * Total(contributors[..k]) < Total(contributors)
    {
      TotalLast(contributors, n);
      cumulativeCommits := cumulativeCommits + contributors[n].commitCount;
      ponyFactor := ponyFactor + 1;
      topContributors := topContributors + [contributors[n]];
      if 2 * cumulativeCommits >= totalCommits {
        break;
      }
    }
  }

  /******* What the list means *******/

  lemma {:induction false} BumpEffect(cs: seq<Contributor>, c: GitCommit, keys: set<string>)
    requires Listed(cs)
    ensures Listed(Bump(cs, c)) && KeysOf(Bump(cs, c)) == KeysOf(cs) + {AuthorKey(c)}
    ensures Held(Bump(cs, c), keys) == Held(cs, keys) + if AuthorKey(c) in keys then 1 else 0
    ensures Total(Bump(cs, c)) == Total(cs) + 1
  {
    if cs != [] {
      BumpEffect(cs[1..], c, keys);
      assert Bump(cs, c)[1..] == if cs[0].key == AuthorKey(c) then cs[1..] else Bump(cs[1..], c);
    }
  }

  /** The tally lists every counted author once, and holds for any set of authors the commits they made. */
  lemma {:induction false} TallyCounts(commits: seq<GitCommit>, isBot: BotTest, keys: set<string>)
    ensures Listed(Tallied(commits, isBot))
    ensures Held(Tallied(commits, isBot), keys) == CommitsBy(commits, isBot, keys)
    ensures Total(Tallied(commits, isBot)) == CountedCommits(commits, isBot)
  {
    if commits != [] {
      TallyCounts(commits[..|commits| - 1], isBot, keys);
      BumpEffect(Tallied(commits[..|commits| - 1], isBot), commits[|commits| - 1], keys);
    }
  }

  lemma {:induction false} InsertDescending(c: Contributor, cs: seq<Contributor>)
    requires Descending(cs)
    ensures var next := Insert(c, cs);
            Descending(next) && forall i :: 0 <= i < |next| ==>
                                              next[i].commitCount <= c.commitCount
                                              || (cs != [] && next[i].commitCount <= cs[0].commitCount)
  {
    if cs != [] && c.commitCount < cs[0].commitCount {
      assert Descending(cs[1..]);
      InsertDescending(c, cs[1..]);
    }
  }

  lemma {:induction false} InsertEffect(c: Contributor, cs: seq<Contributor>, keys: set<string>)
    requires Listed(cs) && c.key !in KeysOf(cs) && c.commitCount > 0
    ensures var next := Insert(c, cs);
            && Listed(next) && KeysOf(next) == KeysOf(cs) + {c.key} && Total(next) == Total(cs) + c.commitCount
            && Held(next, keys) == Held(cs, keys) + (if c.key in keys then c.commitCount else 0)
            && multiset(next) == multiset(cs) + multiset{c}
  {
    if cs == [] || c.commitCount >= cs[0].commitCount {
      assert ([c] + cs)[1..] == cs;
    } else {
      InsertEffect(c, cs[1..], keys);
      assert cs == [cs[0]] + cs[1..];
      assert ([cs[0]] + Insert(c, cs[1..]))[1..] == Insert(c, cs[1..]);
    }
  }

  lemma {:induction false} SortEffect(cs: seq<Contributor>, keys: set<string>)
    requires Listed(cs)
    ensures var sorted := SortedByCommits(cs);
            && Listed(sorted) && Descending(sorted) && KeysOf(sorted) == KeysOf(cs)
            && Held(sorted, keys) == Held(cs, keys) && Total(sorted) == Total(cs)
            && multiset(sorted) == multiset(cs)
  {
    if cs != [] {
      assert cs == [cs[0]] + cs[1..];
      SortEffect(cs[1..], keys);
      InsertDescending(cs[0], SortedByCommits(cs[1..]));
      InsertEffect(cs[0], SortedByCommits(cs[1..]), keys);
    }
  }

  /** The contributors with exactly `n` commits. */
  function WithCount(cs: seq<Contributor>, n: nat): seq<Contributor> {
    if cs == [] then [] else (if cs[0].commitCount == n then [cs[0]] else []) + WithCount(cs[1..], n)
  }

  lemma {:induction false} InsertStable(c: Contributor, cs: seq<Contributor>, n: nat)
    requires Descending(cs)
    ensures WithCount(Insert(c, cs), n) == (if c.commitCount == n then [c] else []) + WithCount(cs, n)
  {
    if cs == [] || c.commitCount >= cs[0].commitCount {
      assert ([c] + cs)[1..] == cs;
    } else {
      assert Descending(cs[1..]);
      InsertStable(c, cs[1..], n);
      assert ([cs[0]] + Insert(c, cs[1..]))[1..] == Insert(c, cs[1..]);
      if c.commitCount == n {
        NoneWithCount(cs, n, c);
      }
    }
  }

  lemma NoneWithCount(cs: seq<Contributor>, n: nat, c: Contributor)
    requires cs != [] && c.commitCount == n < cs[0].commitCount
    ensures WithCount(cs, n) == WithCount(cs[1..], n)
  {
  }

  /** Contributors with equally many commits stay in the order in which they first appeared. */
  lemma {:induction false} SortStable(cs: seq<Contributor>, n: nat)
    requires Listed(cs)
    ensures WithCount(SortedByCommits(cs), n) == WithCount(cs, n)
  {
    if cs != [] {
      SortStable(cs[1..], n);
      SortEffect(cs[1..], {});
      InsertStable(cs[0], SortedByCommits(cs[1..]), n);
    }
  }

  /******* Who the contributors are *******/

  lemma {:induction false} SplitUnique(a: string, b: string, x: string, y: string)
    requires '<' !in b && '<' !in y && a + "<" + b == x + "<" + y
    ensures a == x && b == y
  {
    var s, t := a + "<" + b, x + "<" + y;
    assert s[|a|] == '<' && t[|x|] == '<';
    assert forall i :: |a| < i < |s| ==> s[i] == b[i - |a| - 1];
    assert forall i :: |x| < i < |t| ==> t[i] == y[i - |x| - 1];
    assert |a| == |x|;
    assert s[..|a|] == a && t[..|x|] == x && s[|a| + 1..] == b && t[|x| + 1..] == y;
  }

  /** Two commits count for one contributor exactly if they agree in the name and in the address of the author, as long
      as no address contains the bracket that separates the two. */
  lemma SameContributorIff(c: GitCommit, e: GitCommit)
    requires '<' !in c.author.email && '<' !in e.author.email
    ensures AuthorKey(c) == AuthorKey(e) <==> c.author.name == e.author.name && c.author.email == e.author.email
  {
    var s, t := c.author.name + "<" + c.author.email, e.author.name + "<" + e.author.email;
    if AuthorKey(c) == AuthorKey(e) {
      assert s == AuthorKey(c)[..|AuthorKey(c)| - 1] == t;
      SplitUnique(c.author.name, c.author.email, e.author.name, e.author.email);
    }
  }

  /** The places of the commits that this author made, if the author is not a bot. */
  function CommitsOf(commits: seq<GitCommit>, isBot: BotTest, name: string, email: string): set<int> {
    set i | 0 <= i < |commits| && commits[i].author.name == name && commits[i].author.email == email
            && !isBot(name, email)
  }

  /** The entry carries the name and the address of a counted commit, under their key. */
  predicate Named(commits: seq<GitCommit>, isBot: BotTest, c: Contributor) {
    exists i :: 0 <= i < |commits| && IsAuthor(commits[i], isBot, c)
  }

  predicate IsAuthor(commit: GitCommit, isBot: BotTest, c: Contributor) {
    Counted(commit, isBot) && c.key == AuthorKey(commit) && c.name == commit.author.name
    && c.email == commit.author.email
  }

  lemma {:induction false} BumpNamed(cs: seq<Contributor>, c: GitCommit, commits: seq<GitCommit>, isBot: BotTest)
    requires forall x :: x in cs ==> Named(commits, isBot, x)
    requires c in commits && Counted(c, isBot)
    ensures forall x :: x in Bump(cs, c) ==> Named(commits, isBot, x)
  {
    if cs == [] {
      var k :| 0 <= k < |commits| && commits[k] == c;
      assert IsAuthor(commits[k], isBot, Contributor(AuthorKey(c), c.author.name, c.author.email, 1));
    } else if cs[0].key == AuthorKey(c) {
      var more := cs[0].(commitCount := cs[0].commitCount + 1);
      assert Named(commits, isBot, cs[0]);
      var k :| 0 <= k < |commits| && IsAuthor(commits[k], isBot, cs[0]);
      assert IsAuthor(commits[k], isBot, more);
      assert forall x :: x in Bump(cs, c) ==> x == more || x in cs;
    } else {
      BumpNamed(cs[1..], c, commits, isBot);
      assert forall x :: x in Bump(cs, c) ==> x == cs[0] || x in Bump(cs[1..], c);
    }
  }

  lemma {:induction false} TalliedNamed(commits: seq<GitCommit>, isBot: BotTest)
    ensures forall x :: x in Tallied(commits, isBot) ==> Named(commits, isBot, x)
  {
    if commits != [] {
      var n := |commits| - 1;
      TalliedNamed(commits[..n], isBot);
      forall x | x in Tallied(commits[..n], isBot) ensures Named(commits, isBot, x) {
        var i :| 0 <= i < n && IsAuthor(commits[..n][i], isBot, x);
        assert IsAuthor(commits[i], isBot, x);
      }
      if Counted(commits[n], isBot) {
        BumpNamed(Tallied(commits[..n], isBot), commits[n], commits, isBot);
      }
    }
  }

  lemma {:induction false} HeldByOne(cs: seq<Contributor>, k: nat)
    requires Listed(cs) && k < |cs|
    ensures Held(cs, {cs[k].key}) == cs[k].commitCount > 0 && cs[k].key in KeysOf(cs)
  {
    if k == 0 {
      HeldWithout(cs[1..], {cs[0].key}, cs[0].key);
      assert {cs[0].key} - {cs[0].key} == {};
      HoldsNothing(cs[1..]);
    } else {
      HeldByOne(cs[1..], k - 1);
    }
  }

  lemma {:induction false} EntryOfKey(cs: seq<Contributor>, key: string) returns (k: nat)
    requires key in KeysOf(cs)
    ensures k < |cs| && cs[k].key == key
  {
    if cs[0].key == key {
      k := 0;
    } else {
      var j := EntryOfKey(cs[1..], key);
      k := j + 1;
    }
  }

  lemma {:induction false} KeysDiffer(cs: seq<Contributor>, j: nat, k: nat)
    requires Listed(cs) && j < k < |cs|
    ensures cs[j].key != cs[k].key
  {
    if j == 0 {
      HeldByOne(cs[1..], k - 1);
    } else {
      KeysDiffer(cs[1..], j - 1, k - 1);
    }
  }

  lemma {:induction false} CountByPlaces(commits: seq<GitCommit>, isBot: BotTest, c: GitCommit)
    requires '<' !in c.author.email && forall x :: x in commits ==> '<' !in x.author.email
    requires Counted(c, isBot)
    ensures CommitsBy(commits, isBot, {AuthorKey(c)})
         == |CommitsOf(commits, isBot, c.author.name, c.author.email)|
  {
    var name, email := c.author.name, c.author.email;
    if commits == [] {
      assert CommitsOf(commits, isBot, name, email) == {};
    } else {
      var n := |commits| - 1;
      CountByPlaces(commits[..n], isBot, c);
      SameContributorIff(commits[n], c);
      var before, after := CommitsOf(commits[..n], isBot, name, email), CommitsOf(commits, isBot, name, email);
      if AuthorKey(commits[n]) == AuthorKey(c) {
        assert after == before + {n};
      } else {
        assert after == before;
      }
    }
  }

  /** The metrics list every author who is not a bot, each once, by name and address, with the number of commits that
      this author made. */
  lemma ContributorsAreAuthors(commits: seq<GitCommit>, isBot: BotTest, k: nat)
    requires forall x :: x in commits ==> '<' !in x.author.email
    requires k < |SortedByCommits(Tallied(commits, isBot))|
    ensures var cs := SortedByCommits(Tallied(commits, isBot));
            && cs[k].commitCount == |CommitsOf(commits, isBot, cs[k].name, cs[k].email)| > 0
            && forall j: nat :: j < |cs| && j != k ==> cs[j].name != cs[k].name || cs[j].email != cs[k].email
  {
    var tally := Tallied(commits, isBot);
    var cs := SortedByCommits(tally);
    TallyCounts(commits, isBot, {cs[k].key});
    SortEffect(tally, {cs[k].key});
    TalliedNamed(commits, isBot);
    HeldByOne(cs, k);
    var i := AuthorOfEntry(commits, isBot, k);
    CountByPlaces(commits, isBot, commits[i]);
    forall j: nat | j < |cs| && j != k ensures cs[j].name != cs[k].name || cs[j].email != cs[k].email {
      var h := AuthorOfEntry(commits, isBot, j);
      SameContributorIff(commits[h], commits[i]);
      KeysDiffer(cs, if j < k then j else k, if j < k then k else j);
    }
  }

  lemma AuthorOfEntry(commits: seq<GitCommit>, isBot: BotTest, k: nat) returns (i: nat)
    requires k < |SortedByCommits(Tallied(commits, isBot))|
    ensures i < |commits| && IsAuthor(commits[i], isBot, SortedByCommits(Tallied(commits, isBot))[k])
  {
    var tally := Tallied(commits, isBot);
    var c := SortedByCommits(tally)[k];
    TallyCounts(commits, isBot, {});
    SortEffect(tally, {});
    TalliedNamed(commits, isBot);
    assert c in multiset(SortedByCommits(tally));
    assert Named(commits, isBot, c);
    i :| 0 <= i < |commits| && IsAuthor(commits[i], isBot, c);
  }

  lemma AuthorsAreListed(commits: seq<GitCommit>, isBot: BotTest, i: nat) returns (k: nat)
    requires forall x :: x in commits ==> '<' !in x.author.email
    requires i < |commits| && !isBot(commits[i].author.name, commits[i].author.email)
    ensures var cs := SortedByCommits(Tallied(commits, isBot));
            k < |cs| && cs[k].name == commits[i].author.name && cs[k].email == commits[i].author.email
  {
    var tally := Tallied(commits, isBot);
    TallyCounts(commits, isBot, {});
    SortEffect(tally, {});
    KeyIsTallied(commits, isBot, i);
    k := EntryOfKey(SortedByCommits(tally), AuthorKey(commits[i]));
    var h := AuthorOfEntry(commits, isBot, k);
    SameContributorIff(commits[h], commits[i]);
  }

  lemma {:induction false} KeyIsTallied(commits: seq<GitCommit>, isBot: BotTest, i: nat)
    requires i < |commits| && Counted(commits[i], isBot)
    ensures AuthorKey(commits[i]) in KeysOf(Tallied(commits, isBot))
  {
    var n := |commits| - 1;
    TallyCounts(commits[..n], isBot, {});
    BumpEffect(Tallied(commits[..n], isBot), commits[n], {});
    if i < n {
      KeyIsTallied(commits[..n], isBot, i);
    }
  }

  /******* The greedy choice is the best one *******/

  lemma {:induction false} HeldWithout(cs: seq<Contributor>, keys: set<string>, key: string)
    requires key !in KeysOf(cs)
    ensures Held(cs, keys) == Held(cs, keys - {key})
  {
    if cs != [] {
      HeldWithout(cs[1..], keys, key);
    }
  }

  lemma {:induction false} LaterHoldsLess(cs: seq<Contributor>, n: nat)
    requires Descending(cs) && n < |cs|
    ensures Total(cs[1..][..n]) <= Total(cs[..n])
  {
    if n > 0 {
      LaterHoldsLess(cs, n - 1);
      TotalLast(cs, n - 1);
      TotalLast(cs[1..], n - 1);
    }
  }

  /** No `|keys|` authors hold more than the first `|keys|` of a sorted list. */
  lemma {:induction false} FirstOnesHoldMost(cs: seq<Contributor>, keys: set<string>)
    requires Listed(cs) && Descending(cs)
    ensures |keys| < |cs| ==> Held(cs, keys) <= Total(cs[..|keys|])
    ensures Held(cs, keys) <= Total(cs)
  {
    if cs != [] {
      var rest := cs[1..];
      var fewer := keys - {cs[0].key};
      assert Descending(rest);
      HeldWithout(rest, keys, cs[0].key);
      FirstOnesHoldMost(rest, fewer);
      if |keys| < |cs| {
        if cs[0].key in keys {
          assert |fewer| == |keys| - 1;
          assert cs[..|keys|][0] == cs[0] && cs[..|keys|][1..] == rest[..|fewer|];
        } else {
          assert fewer == keys;
          assert |keys| == |rest| ==> rest[..|keys|] == rest;
          LaterHoldsLess(cs, |keys|);
        }
      }
    }
  }

  lemma {:induction false} FirstOnesHold(cs: seq<Contributor>, n: nat)
    requires Listed(cs) && n <= |cs|
    ensures |KeysOf(cs[..n])| == n && KeysOf(cs[..n]) <= KeysOf(cs) && Held(cs, KeysOf(cs[..n])) == Total(cs[..n])
  {
    if n > 0 {
      var top, rest := cs[..n], cs[1..];
      assert top[1..] == rest[..n - 1];
      FirstOnesHold(rest, n - 1);
      HeldWithout(rest, KeysOf(top), cs[0].key);
      assert KeysOf(top) - {cs[0].key} == KeysOf(rest[..n - 1]);
    } else {
      HoldsNothing(cs);
    }
  }

  lemma {:induction false} HoldsNothing(cs: seq<Contributor>)
    ensures Held(cs, {}) == 0
  {
    if cs != [] {
      HoldsNothing(cs[1..]);
    }
  }

  /** The pony factor is the size of the smallest group of authors behind half of the counted commits: the
      leading contributors are such a group, and every such group is at least as large. */
  lemma PonyFactorIsLeast(commits: seq<GitCommit>, isBot: BotTest, factor: nat, keys: set<string>)
    requires var cs := SortedByCommits(Tallied(commits, isBot)); LeadsHalf(cs, factor)
    ensures var top := KeysOf(SortedByCommits(Tallied(commits, isBot))[..factor]);
            |top| == factor && 2 * CommitsBy(commits, isBot, top) >= CountedCommits(commits, isBot)
    ensures 2 * CommitsBy(commits, isBot, keys) >= CountedCommits(commits, isBot) ==> factor <= |keys|
  {
    var tally := Tallied(commits, isBot);
    var cs := SortedByCommits(tally);
    var top := KeysOf(cs[..factor]);
    TallyCounts(commits, isBot, top);
    SortEffect(tally, top);
    FirstOnesHold(cs, factor);
    TallyCounts(commits, isBot, keys);
    SortEffect(tally, keys);
    FirstOnesHoldMost(cs, keys);
    if |keys| < factor {
      assert |keys| == 0 ==> cs[..|keys|] == [] && Total(cs[..|keys|]) == 0;
      assert Total(cs) >= cs[0].commitCount;
    }
  }
}

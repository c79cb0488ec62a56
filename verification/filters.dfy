/**
  The search filters of the rules sheet and of the sidebar's chat and project
  lists, the rules sheet's selected count and the sidebar's "new chat" action.
  Each filter is `Array.filter` behind an "empty search shows everything"
  short cut.
 */
module SearchFilters {
  import opened Wrappers
  import opened Text
  import Chats
  import Projects

  // ---------------------------------------------------------------------------
  // Order-preserving filtering
  // ---------------------------------------------------------------------------

  /** `a` can be obtained from `b` by deleting elements, keeping the rest in order. */
  predicate IsSubsequence<T(==)>(a: seq<T>, b: seq<T>)
  {
    a == [] || (b != [] && ((a[0] == b[0] && IsSubsequence(a[1..], b[1..])) || IsSubsequence(a, b[1..])))
  }

  /** `Array.filter`: the elements satisfying `keep`, in their original order. */
  function Filter<T(!new)>(xs: seq<T>, keep: T -> bool): (r: seq<T>)
    ensures |r| <= |xs|
    ensures forall x :: x in r <==> x in xs && keep(x)
    ensures (forall i :: 0 <= i < |xs| ==> keep(xs[i])) ==> r == xs
    ensures forall x :: multiset(r)[x] == if keep(x) then multiset(xs)[x] else 0
  {
    if xs == [] then []
    else
      var rest := Filter(xs[1..], keep);
      assert forall x :: x in xs <==> x == xs[0] || x in xs[1..];
      assert xs == [xs[0]] + xs[1..];
      if keep(xs[0]) then [xs[0]] + rest else rest
  }

  /** The filtered list is an order-preserving subsequence of the list. */
  lemma {:induction false} FilterIsSubsequence<T(!new)>(xs: seq<T>, keep: T -> bool)
    ensures IsSubsequence(Filter(xs, keep), xs)
  {
    if xs != [] {
      FilterIsSubsequence(xs[1..], keep);
      var rest := Filter(xs[1..], keep);
      if keep(xs[0]) {
        assert Filter(xs, keep) == [xs[0]] + rest;
        assert ([xs[0]] + rest)[1..] == rest;
      }
    }
  }

  /** A weaker condition keeps at least the elements a stronger one keeps, in the same order. */
  lemma {:induction false} FilterMonotone<T(!new)>(xs: seq<T>, stronger: T -> bool, weaker: T -> bool)
    requires forall x :: x in xs && stronger(x) ==> weaker(x)
    ensures IsSubsequence(Filter(xs, stronger), Filter(xs, weaker))
  {
    if xs != [] {
      FilterMonotone(xs[1..], stronger, weaker);
      var s := Filter(xs[1..], stronger);
      var w := Filter(xs[1..], weaker);
      if stronger(xs[0]) {
        assert ([xs[0]] + s)[1..] == s && ([xs[0]] + w)[1..] == w;
      } else if weaker(xs[0]) {
        assert ([xs[0]] + w)[1..] == w;
      }
    }
  }

  // ---------------------------------------------------------------------------
  // Rules
  // ---------------------------------------------------------------------------

  /** A style rule of the attachment sheet; `id` is the fresh UUID it gets when created. */
  datatype Rule = Rule(id: string, name: string, description: string, isSelected: bool)

  /** The four rules the sheet starts with, none selected. */
  function InitialRules(ids: seq<string>): (rules: seq<Rule>)
    requires |ids| == 4
    ensures |rules| == 4
    ensures forall i :: 0 <= i < 4 ==> rules[i].id == ids[i] && !rules[i].isSelected
  {
    [Rule(ids[0], "normal", "default responses from assistant", false),
     Rule(ids[1], "concise", "shorter responses & more messages", false),
     Rule(ids[2], "explanatory", "educational responses for learning", false),
     Rule(ids[3], "formal", "clear and well-structured responses", false)]
  }

  predicate RuleMatches(search: string, rule: Rule)
  {
    CaseInsensitiveContains(rule.name, search) || CaseInsensitiveContains(rule.description, search)
  }

  /** `filteredRules`. */
  function FilteredRules(rules: seq<Rule>, search: string): (r: seq<Rule>)
    ensures search == [] ==> r == rules
    ensures search != [] ==> forall rule :: rule in r <==> rule in rules && RuleMatches(search, rule)
  {
    if search == [] then rules else Filter(rules, rule => RuleMatches(search, rule))
  }

  /** The rules shown are always an order-preserving subsequence of all rules. */
  lemma FilteredRulesSubsequence(rules: seq<Rule>, search: string)
    ensures IsSubsequence(FilteredRules(rules, search), rules)
  {
    if search == [] {
      FilterIsSubsequence(rules, (rule: Rule) => true);
    } else {
      FilterIsSubsequence(rules, rule => RuleMatches(search, rule));
    }
  }

  /** The number of ticked rules, counted one rule at a time. */
  function CountSelected(rules: seq<Rule>): nat
  {
    if rules == [] then 0 else (if rules[0].isSelected then 1 else 0) + CountSelected(rules[1..])
  }

  /** The filtered list has as many elements as the count says. */
  lemma {:induction false} FilterSelectedCount(rules: seq<Rule>)
    ensures |Filter(rules, (rule: Rule) => rule.isSelected)| == CountSelected(rules)
  {
    if rules != [] {
      FilterSelectedCount(rules[1..]);
    }
  }

  /** The count is zero exactly when no rule is ticked. */
  lemma {:induction false} CountSelectedZero(rules: seq<Rule>)
    ensures CountSelected(rules) <= |rules|
    ensures CountSelected(rules) == 0 <==> forall i :: 0 <= i < |rules| ==> !rules[i].isSelected
  {
    if rules != [] {
      CountSelectedZero(rules[1..]);
      assert forall i :: 1 <= i < |rules| ==> rules[i] == rules[1..][i - 1];
    }
  }

  /** `selectedRulesCount`: how many rules are ticked. */
  function SelectedRulesCount(rules: seq<Rule>): (n: nat)
    ensures n == CountSelected(rules)
    ensures n <= |rules|
    ensures n == 0 <==> forall i :: 0 <= i < |rules| ==> !rules[i].isSelected
  {
    FilterSelectedCount(rules);
    CountSelectedZero(rules);
    |Filter(rules, (rule: Rule) => rule.isSelected)|
  }

  /** The sheet opens with nothing selected. */
  lemma InitialRulesUnselected(ids: seq<string>)
    requires |ids| == 4
    ensures SelectedRulesCount(InitialRules(ids)) == 0
  {
  }

  // ---------------------------------------------------------------------------
  // Sidebar lists
  // ---------------------------------------------------------------------------

  /** `filteredChats`: chats whose title contains the filter, ignoring case. */
  function FilteredChats(chats: seq<Chats.Chat>, filter: string): (r: seq<Chats.Chat>)
    ensures filter == [] ==> r == chats
    ensures filter != [] ==> forall c :: c in r <==> c in chats && CaseInsensitiveContains(c.title, filter)
  {
    if filter == [] then chats else Filter(chats, (c: Chats.Chat) => CaseInsensitiveContains(c.title, filter))
  }

  /** The chats shown are always an order-preserving subsequence of all chats. */
  lemma FilteredChatsSubsequence(chats: seq<Chats.Chat>, filter: string)
    ensures IsSubsequence(FilteredChats(chats, filter), chats)
  {
    if filter == [] {
      FilterIsSubsequence(chats, (c: Chats.Chat) => true);
    } else {
      FilterIsSubsequence(chats, (c: Chats.Chat) => CaseInsensitiveContains(c.title, filter));
    }
  }

  /** `filteredProjects`: projects whose name (not description) contains the search, ignoring case. */
  function FilteredProjects(projects: seq<Projects.Project>, search: string): (r: seq<Projects.Project>)
    ensures search == [] ==> r == projects
    ensures search != [] ==> forall p :: p in r <==> p in projects && CaseInsensitiveContains(p.name, search)
  {
    if search == [] then projects
    else Filter(projects, (p: Projects.Project) => CaseInsensitiveContains(p.name, search))
  }

  /** The projects shown are always an order-preserving subsequence of all projects. */
  lemma FilteredProjectsSubsequence(projects: seq<Projects.Project>, search: string)
    ensures IsSubsequence(FilteredProjects(projects, search), projects)
  {
    if search == [] {
      FilterIsSubsequence(projects, (p: Projects.Project) => true);
    } else {
      FilterIsSubsequence(projects, (p: Projects.Project) => CaseInsensitiveContains(p.name, search));
    }
  }

  /**
    Typing more characters never brings a project back: the list for the
    longer search is a subsequence of the list for any search it extends.
   */
  lemma ExtendingSearchNarrows(projects: seq<Projects.Project>, search: string, longer: string)
    requires HasPrefix(longer, search)
    ensures IsSubsequence(FilteredProjects(projects, longer), FilteredProjects(projects, search))
  {
    var narrow := (p: Projects.Project) => CaseInsensitiveContains(p.name, longer);
    if search == [] {
      if longer == [] {
        FilterIsSubsequence(projects, (p: Projects.Project) => true);
      } else {
        FilterIsSubsequence(projects, narrow);
      }
    } else {
      var wide := (p: Projects.Project) => CaseInsensitiveContains(p.name, search);
      forall p | p in projects && narrow(p)
        ensures wide(p)
      {
        CaseInsensitiveContainsPrefix(p.name, search, longer);
      }
      FilterMonotone(projects, narrow, wide);
    }
  }

  /**
    The empty-search short cut is what shows the chats: no title contains the
    empty text, so filtering on it would show nothing, while the short cut
    shows every chat.
   */
  lemma EmptyFilterKeepsAll(chats: seq<Chats.Chat>)
    ensures Filter(chats, (c: Chats.Chat) => CaseInsensitiveContains(c.title, [])) == []
    ensures FilteredChats(chats, []) == chats
  {
  }

  // ---------------------------------------------------------------------------
  // New chat from the sidebar
  // ---------------------------------------------------------------------------

  /** The part of the app state the sidebar's "new chat" action touches. */
  datatype SidebarState = SidebarState(currentChatId: Option<string>, isShowing: bool)

  /** `navigateToNewChat`: no chat is current any more and the sidebar closes. */
  function NavigateToNewChat(s: SidebarState): (t: SidebarState)
    ensures t.currentChatId.None? && !t.isShowing
  {
    s.(currentChatId := None, isShowing := false)
  }

  /** Starting a new chat twice in a row is the same as once. */
  lemma NavigateToNewChatIdempotent(s: SidebarState)
    ensures NavigateToNewChat(NavigateToNewChat(s)) == NavigateToNewChat(s)
  {
  }
}

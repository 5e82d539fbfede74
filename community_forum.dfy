// components/community-forum.tsx: the community forum. A form to open a new
// discussion, guarded like the review forms, and tabs that filter the posts by
// category.

module CommunityForum {

  import opened Wrappers
  import opened Text
  import opened Seqs

  datatype PostAuthor = PostAuthor(name: string, avatar: string, badge: Option<string>)

  datatype ForumPost = ForumPost(
    id: int, title: string, content: string, author: PostAuthor, category: string,
    replies: int, likes: int, isPinned: bool, createdAt: string, lastActivity: string)

  /** The values of the four tabs. */
  const Tabs: seq<string> := ["all", "discussion", "conseils", "actualités"]

  /** The guard of `handleSubmitPost`: neither the title nor the message is blank. */
  predicate CanPost(title: string, content: string)
  {
    !IsBlank(title) && !IsBlank(content)
  }

  /** The `disabled` expression of the publish button. */
  predicate PostDisabled(title: string, content: string, isSubmitting: bool)
  {
    IsBlank(title) || IsBlank(content) || isSubmitting
  }

  /** A post is accepted exactly when both fields hold a character that is not
      white space; the button is enabled exactly when, besides, nothing is in flight. */
  lemma CanPostMeaning(title: string, content: string, isSubmitting: bool)
    ensures CanPost(title, content) <==>
      (exists i :: 0 <= i < |title| && !IsJsWhitespace(title[i])) && (exists i :: 0 <= i < |content| && !IsJsWhitespace(content[i]))
    ensures !PostDisabled(title, content, isSubmitting) <==> CanPost(title, content) && !isSubmitting
  {
    BlankIffAllWhitespace(title);
    BlankIffAllWhitespace(content);
  }

  /** The predicate of `filteredPosts`. */
  predicate OnTab(lower: CaseFold, tab: string, post: ForumPost)
  {
    tab == "all" || lower(post.category) == tab
  }

  function TabFilter(lower: CaseFold, tab: string): ForumPost -> bool
  {
    (p: ForumPost) => OnTab(lower, tab, p)
  }

  /** `filteredPosts`: every post on the "all" tab, else the posts whose folded
      category is the tab's value, in their original order. */
  function FilteredPosts(posts: seq<ForumPost>, lower: CaseFold, tab: string): (r: seq<ForumPost>)
    ensures forall p | p in r :: p in posts && OnTab(lower, tab, p)
    ensures forall p | p in posts && OnTab(lower, tab, p) :: p in r
    ensures IsSubsequence(r, posts)
    ensures tab == "all" ==> r == posts
  {
    FilterIsSubsequence(posts, TabFilter(lower, tab));
    if tab == "all" then
      FilterKeepsAll(posts, TabFilter(lower, tab));
      Filter(posts, TabFilter(lower, tab))
    else Filter(posts, TabFilter(lower, tab))
  }

  /** Each post appears under at most one category tab. */
  lemma PostOnOneCategoryTab(posts: seq<ForumPost>, lower: CaseFold, t1: string, t2: string, p: ForumPost)
    requires t1 != "all" && t2 != "all" && t1 != t2
    ensures !(p in FilteredPosts(posts, lower, t1) && p in FilteredPosts(posts, lower, t2))
  {
  }

  datatype DraftState = DraftState(activeTab: string, newPostTitle: string, newPostContent: string, isSubmitting: bool)

  const InitialDraft := DraftState("all", "", "", false)

  class Forum {
    var activeTab: string
    var newPostTitle: string
    var newPostContent: string
    var isSubmitting: bool

    function State(): DraftState
      reads this
    {
      DraftState(activeTab, newPostTitle, newPostContent, isSubmitting)
    }

    constructor ()
      ensures State() == InitialDraft
    {
      activeTab, newPostTitle, newPostContent, isSubmitting := "all", "", "", false;
    }

    method SetActiveTab(tab: string)
      modifies this
      ensures State() == old(State()).(activeTab := tab)
    {
      activeTab := tab;
    }

    method SetNewPostTitle(title: string)
      modifies this
      ensures State() == old(State()).(newPostTitle := title)
    {
      newPostTitle := title;
    }

    method SetNewPostContent(content: string)
      modifies this
      ensures State() == old(State()).(newPostContent := content)
    {
      newPostContent := content;
    }

    /** The guard, then `isSubmitting` is raised for the simulated request. */
    method StartSubmit() returns (accepted: bool)
      modifies this
      ensures accepted == CanPost(old(newPostTitle), old(newPostContent))
      ensures State() == if accepted then old(State()).(isSubmitting := true) else old(State())
    {
      if IsBlank(newPostTitle) || IsBlank(newPostContent) {
        return false;
      }
      isSubmitting := true;
      return true;
    }

    /** The reset once the delay has elapsed; the active tab is kept. */
    method FinishSubmit()
      modifies this
      ensures State() == old(State()).(newPostTitle := "", newPostContent := "", isSubmitting := false)
    {
      newPostTitle := "";
      newPostContent := "";
      isSubmitting := false;
    }

    /** `handleSubmitPost` with the delay taken as one step. */
    method HandleSubmitPost() returns (accepted: bool)
      modifies this
      ensures accepted == CanPost(old(newPostTitle), old(newPostContent))
      ensures State() == if accepted then old(State()).(newPostTitle := "", newPostContent := "", isSubmitting := false)
                         else old(State())
      ensures accepted ==> PostDisabled(newPostTitle, newPostContent, isSubmitting)
    {
      accepted := StartSubmit();
      if accepted {
        FinishSubmit();
      }
    }

    function Listed(posts: seq<ForumPost>, lower: CaseFold): seq<ForumPost>
      reads this
    {
      FilteredPosts(posts, lower, activeTab)
    }
  }
}

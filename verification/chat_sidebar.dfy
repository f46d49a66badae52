/** The chat sidebar: the title search over the user's chats, the text shown
    when nothing is listed, and the navigation links. */
module ChatSidebar {
  import opened Common

  /** A chat as the sidebar lists it. */
  datatype ChatSummary = ChatSummary(id: string, title: string, updatedAt: string)

  /** One character in lower case (ASCII letters only). */
  function LowerChar(c: char): (d: char)
    ensures 'A' <= c <= 'Z' ==> d as int == c as int + 32
    ensures !('A' <= c <= 'Z') ==> d == c
  {
    if 'A' <= c <= 'Z' then (c as int + 32) as char else c
  }

  /** `s.toLowerCase()`, on ASCII letters. */
  function Lower(s: string): (r: string)
    ensures |r| == |s|
    ensures forall k :: 0 <= k < |s| ==> r[k] == LowerChar(s[k])
    ensures forall k :: 0 <= k < |r| ==> !('A' <= r[k] <= 'Z')
  {
    seq(|s|, k requires 0 <= k < |s| => LowerChar(s[k]))
  }

  /** Lower-casing twice is lower-casing once. */
  lemma LowerIdempotent(s: string)
    ensures Lower(Lower(s)) == Lower(s)
  {
  }

  /** Whether a chat's title contains the search term, ignoring case. */
  predicate Matches(chat: ChatSummary, term: string)
    ensures term == "" ==> Matches(chat, term)
  {
    // the empty term occurs at offset 0
    assert term == "" ==> StartsWith(Lower(chat.title)[0..], Lower(term));
    Contains(Lower(chat.title), Lower(term))
  }

  /** The chats the sidebar lists for a search term: exactly the matching
      ones, in their original order. */
  function FilterChats(chats: seq<ChatSummary>, term: string): (shown: seq<ChatSummary>)
    ensures forall i :: 0 <= i < |shown| ==> shown[i] in chats && Matches(shown[i], term)
    ensures forall i :: 0 <= i < |chats| && Matches(chats[i], term) ==> chats[i] in shown
  {
    Filter(chats, (c: ChatSummary) => Matches(c, term))
  }

  /** The listed chats keep the order they had. */
  lemma FilterChatsKeepsOrder(chats: seq<ChatSummary>, term: string)
    ensures IsSubsequence(FilterChats(chats, term), chats)
  {
    FilterIsSubsequence(chats, (c: ChatSummary) => Matches(c, term));
  }

  /** With no search term, every chat is listed. */
  lemma EmptySearchShowsAll(chats: seq<ChatSummary>)
    ensures FilterChats(chats, "") == chats
  {
    forall i | 0 <= i < |chats|
      ensures Matches(chats[i], "")
    {
      assert StartsWith(Lower(chats[i].title)[0..], Lower(""));
    }
    FilterKeepsAll(chats, (c: ChatSummary) => Matches(c, ""));
  }

  /** Searching is blind to case: a term and its lower-case form list the
      same chats. */
  lemma SearchIgnoresCase(chats: seq<ChatSummary>, term: string)
    ensures FilterChats(chats, Lower(term)) == FilterChats(chats, term)
  {
    LowerIdempotent(term);
    FilterSameTest(chats, (c: ChatSummary) => Matches(c, Lower(term)), (c: ChatSummary) => Matches(c, term));
  }

  /** The text shown in place of the list when no chat is listed: a search
      that found nothing, or no chats at all. */
  function EmptyStateText(shown: seq<ChatSummary>, term: string): (t: Option<string>)
    ensures t.Some? <==> shown == []
    ensures t.Some? ==> (t.value == "No chats found" <==> term != "")
    ensures t.Some? ==> (t.value == "No chats yet" <==> term == "")
  {
    if shown == [] then Some(if term != "" then "No chats found" else "No chats yet") else None
  }

  /** `No chats yet` is shown exactly when the user has no chat. */
  lemma NoChatsYetMeansNone(chats: seq<ChatSummary>)
    ensures EmptyStateText(FilterChats(chats, ""), "") == Some("No chats yet") <==> chats == []
  {
    EmptySearchShowsAll(chats);
  }

  /** The navigation links: the key list and the documentation always, the
      admin console only for a session whose role is `ADMIN`. */
  function NavLinks(role: Option<string>): (links: seq<string>)
    ensures |links| >= 2 && links[..2] == ["/dashboard/keys", "/docs/api"]
    ensures "/admin" in links <==> role == Some("ADMIN")
  {
    ["/dashboard/keys", "/docs/api"] + (if role == Some("ADMIN") then ["/admin"] else [])
  }
}

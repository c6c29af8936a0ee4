/** The admin screen's conversation list and its case-insensitive search. */
module Admin {
  import opened Sequences
  import Text

  /** One row of the conversation list. */
  datatype Conversation = Conversation(id: string, date: string, patientId: string, duration: string, summary: string, actions: nat)

  /** The list the screen starts with; nothing in the screen changes it. */
  const InitialConversations: seq<Conversation> := [
    Conversation("conv-001", "2025-04-01", "P-12345", "12:34", "Headache assessment, blood tests ordered", 2),
    Conversation("conv-002", "2025-03-30", "P-67890", "08:21", "Follow-up for diabetes management", 1),
    Conversation("conv-003", "2025-03-28", "P-54321", "15:47", "Annual physical examination", 3)
  ]

  /** The row test: the lowercased patient id or summary includes the lowercased term. */
  predicate Matches(term: string, c: Conversation)
  {
    Text.Contains(Text.Lower(c.patientId), Text.Lower(term)) || Text.Contains(Text.Lower(c.summary), Text.Lower(term))
  }

  /** `filteredConversations`: exactly the matching rows, in list order. */
  function FilteredConversations(conversations: seq<Conversation>, term: string): (r: seq<Conversation>)
    ensures forall i :: 0 <= i < |r| ==> r[i] in conversations && Matches(term, r[i])
    ensures forall i :: 0 <= i < |conversations| && Matches(term, conversations[i]) ==> conversations[i] in r
    ensures IsSubsequence(r, conversations)
    ensures forall c :: multiset(r)[c] == if Matches(term, c) then multiset(conversations)[c] else 0
    ensures |r| <= |conversations|
  {
    SubsequenceNoLonger(Filter(conversations, c => Matches(term, c)), conversations);
    Filter(conversations, c => Matches(term, c))
  }

  /** An empty search term keeps every row. */
  lemma EmptyTermKeepsAll(conversations: seq<Conversation>)
    ensures FilteredConversations(conversations, "") == conversations
  {
    forall i | 0 <= i < |conversations| ensures Matches("", conversations[i]) {
      Text.ContainsEmpty(Text.Lower(conversations[i].patientId));
    }
    FilterKeepsAll(conversations, c => Matches("", c));
  }

  /** Terms that differ only in the case of their letters select the same rows. */
  lemma CaseOfTermIrrelevant(conversations: seq<Conversation>, t1: string, t2: string)
    requires Text.Lower(t1) == Text.Lower(t2)
    ensures FilteredConversations(conversations, t1) == FilteredConversations(conversations, t2)
  {
    FilterAgrees(conversations, c => Matches(t1, c), c => Matches(t2, c));
  }

  /** Searching with an already lowercased term is the same search. */
  lemma LoweredTermSameResult(conversations: seq<Conversation>, term: string)
    ensures FilteredConversations(conversations, Text.Lower(term)) == FilteredConversations(conversations, term)
  {
    Text.LowerIdempotent(term);
    CaseOfTermIrrelevant(conversations, Text.Lower(term), term);
  }
}

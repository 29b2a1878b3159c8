/**
 * Model of the session bookkeeping of the document-retrieval chat UI
 * (enterprise_knowledge_retriever/streamlit/app.py): the chat and sources
 * histories, the numbered list of source files shown with each answer, and
 * the flag that keeps the question box disabled until a vector store exists.
 *
 * The conversation chain, the vector store, the file system and the widgets
 * are outside the model: the chain's answer and the filenames of its source
 * documents are inputs, button presses are method calls, and
 * `os.path.exists` is a boolean input.
 */
module Retriever {
  import opened Wrappers
  import opened Text

  // ---------------------------------------------------------------------
  // The sources text (app.py:29-38)
  // ---------------------------------------------------------------------

  /** One line of the sources text: `<font size="2" color="grey">{i}. {name}</font>  \n`. */
  function Entry(index: nat, name: string): (r: string)
    ensures |r| > |name|
  {
    "<font size=\"2\" color=\"grey\">" + Decimal(index) + ". " + name + "</font>  \n"
  }

  /** The sources text for filenames met in the order `order`, numbered from 1. */
  function Listing(order: seq<string>): (r: string)
    ensures r == "" <==> order == []
    decreases |order|
  {
    if order == [] then ""
    else Listing(order[..|order| - 1]) + Entry(|order|, order[|order| - 1])
  }

  /** The listing is the entries numbered 1..n consecutively, one per name. */
  lemma {:induction false} ListingNumbersEntries(order: seq<string>)
    ensures Listing(order) == Concat(seq(|order|, i requires 0 <= i < |order| => Entry(i + 1, order[i])))
    decreases |order|
  {
    if order != [] {
      var n := |order| - 1;
      var init := order[..n];
      ListingNumbersEntries(init);
      var entries := seq(|order|, i requires 0 <= i < |order| => Entry(i + 1, order[i]));
      var initEntries := seq(n, i requires 0 <= i < n => Entry(i + 1, init[i]));
      assert entries == initEntries + [Entry(n + 1, order[n])];
      ConcatSnoc(initEntries, Entry(n + 1, order[n]));
    }
  }

  lemma ListingSnoc(order: seq<string>, name: string)
    ensures Listing(order + [name]) == Listing(order) + Entry(|order| + 1, name)
  {
    var longer := order + [name];
    assert longer[..|order|] == order && longer[|order|] == name;
  }

  predicate Distinct(s: seq<string>) {
    forall i, j :: 0 <= i < j < |s| ==> s[i] != s[j]
  }

  lemma DistinctSnoc(s: seq<string>, x: string)
    requires Distinct(s) && x !in s
    ensures Distinct(s + [x])
  {
    forall i, j | 0 <= i < j < |s| + 1 ensures (s + [x])[i] != (s + [x])[j] {
      if j == |s| {
        assert (s + [x])[i] == s[i];
      }
    }
  }

  /** `order` lists every distinct filename exactly once, in some order. */
  ghost predicate EnumeratesNames(order: seq<string>, filenames: seq<string>) {
    Distinct(order) && forall x :: x in order <==> x in filenames
  }

  /** `text` is a sources text for `filenames`: the listing of some enumeration of them. */
  ghost predicate ListsSources(text: string, filenames: seq<string>) {
    exists order :: EnumeratesNames(order, filenames) && text == Listing(order)
  }

  lemma ListsSourcesWitness(text: string, filenames: seq<string>, order: seq<string>)
    requires EnumeratesNames(order, filenames) && text == Listing(order)
    ensures ListsSources(text, filenames)
  {
  }

  /** A listing of distinct names has one entry per distinct filename. */
  lemma {:induction false} EnumerationSize(order: seq<string>, names: set<string>)
    requires Distinct(order) && forall x :: x in order <==> x in names
    ensures |order| == |names|
    decreases |order|
  {
    if order != [] {
      var n := |order| - 1;
      var last := order[n];
      forall x | x in order[..n] ensures x != last {
        var k :| 0 <= k < n && order[k] == x;
      }
      forall x ensures x in order[..n] <==> x in names - {last} {
        if x in order && x != last {
          var k :| 0 <= k < |order| && order[k] == x;
          assert k < n;
        }
      }
      EnumerationSize(order[..n], names - {last});
    }
  }

  /**
   * `sources = set(...)` followed by `for index, source in enumerate(sources,
   * start=1)`. A Python set is iterated in an order the program does not
   * control, so each step picks any name not yet listed; `order` records the
   * order that was taken.
   */
  method BuildSourcesText(filenames: seq<string>) returns (text: string, ghost order: seq<string>)
    ensures EnumeratesNames(order, filenames)
    ensures |order| == |set f | f in filenames|
    ensures text == Listing(order)
    ensures text == "" <==> filenames == []
  {
    var sources := set f | f in filenames;
    text := "";
    order := [];
    var remaining := sources;
    var index := 1;
    while remaining != {}
      invariant remaining <= sources
      invariant forall x :: x in order <==> x in sources && x !in remaining
      invariant Distinct(order)
      invariant index == |order| + 1
      invariant text == Listing(order)
      decreases |remaining|
    {
      var source :| source in remaining;
      ListingSnoc(order, source);
      DistinctSnoc(order, source);
      text := text + Entry(index, source);
      order := order + [source];
      remaining := remaining - {source};
      index := index + 1;
    }
    EnumerationSize(order, sources);
    if filenames != [] {
      assert filenames[0] in order;
    }
  }

  // ---------------------------------------------------------------------
  // What the chat area shows (app.py:41-45)
  // ---------------------------------------------------------------------

  /** One rendered exchange: the question, the answer and its sources text. */
  datatype Turn = Turn(question: string, answer: string, sources: string)

  /** Python's `s[::2]`. */
  function EveryOther(s: seq<string>): (r: seq<string>)
    ensures |r| == (|s| + 1) / 2
    decreases |s|
  {
    if |s| <= 1 then s else [s[0]] + EveryOther(s[2..])
  }

  /** Element `i` of `s[::2]` is element `2i` of `s`. */
  lemma {:induction false} EveryOtherAt(s: seq<string>, i: nat)
    requires i < (|s| + 1) / 2
    ensures EveryOther(s)[i] == s[2 * i]
    decreases i
  {
    if i > 0 {
      EveryOtherAt(s[2..], i - 1);
    }
  }

  /** Python's `zip`, which stops at the shortest of its three arguments. */
  function Zip3(qs: seq<string>, ans: seq<string>, srcs: seq<string>): (r: seq<Turn>)
    ensures |r| <= |qs| && |r| <= |ans| && |r| <= |srcs|
    ensures |r| == |qs| || |r| == |ans| || |r| == |srcs|
    decreases |qs|
  {
    if qs == [] || ans == [] || srcs == [] then []
    else [Turn(qs[0], ans[0], srcs[0])] + Zip3(qs[1..], ans[1..], srcs[1..])
  }

  /** Element `i` of the zip takes element `i` of each argument. */
  lemma {:induction false} Zip3At(qs: seq<string>, ans: seq<string>, srcs: seq<string>, i: nat)
    requires i < |Zip3(qs, ans, srcs)|
    ensures Zip3(qs, ans, srcs)[i] == Turn(qs[i], ans[i], srcs[i])
    decreases i
  {
    if i > 0 {
      Zip3At(qs[1..], ans[1..], srcs[1..], i - 1);
    }
  }

  /** Python's `s[1::2]`. */
  function Odds(s: seq<string>): (r: seq<string>)
    ensures |r| == |s| / 2
  {
    if s == [] then [] else EveryOther(s[1..])
  }

  /** `zip(chat_history[::2], chat_history[1::2], sources_history)`. */
  function Pairs(chat: seq<string>, sources: seq<string>): seq<Turn> {
    Zip3(EveryOther(chat), Odds(chat), sources)
  }

  /**
   * With two chat entries per sources entry the zip drops nothing: turn `i`
   * is question `2i`, answer `2i + 1` and sources entry `i`.
   */
  lemma PairingIsComplete(chat: seq<string>, sources: seq<string>)
    requires |chat| == 2 * |sources|
    ensures |Pairs(chat, sources)| == |sources|
    ensures forall i :: 0 <= i < |sources| ==>
              Pairs(chat, sources)[i] == Turn(chat[2 * i], chat[2 * i + 1], sources[i])
  {
    forall i | 0 <= i < |sources|
      ensures Pairs(chat, sources)[i] == Turn(chat[2 * i], chat[2 * i + 1], sources[i])
    {
      EveryOtherAt(chat, i);
      EveryOtherAt(chat[1..], i);
      Zip3At(EveryOther(chat), Odds(chat), sources, i);
    }
  }

  lemma {:induction false} EveryOtherSnoc2(s: seq<string>, x: string, y: string)
    ensures EveryOther(s + [x, y]) == EveryOther(s) + [if |s| % 2 == 0 then x else y]
    decreases |s|
  {
    if |s| <= 1 {
      assert s == [] || s == [s[0]];
    } else {
      assert (s + [x, y])[2..] == s[2..] + [x, y];
      assert (s + [x, y])[0] == s[0];
      EveryOtherSnoc2(s[2..], x, y);
    }
  }

  lemma {:induction false} Zip3Snoc(qs: seq<string>, ans: seq<string>, srcs: seq<string>, q: string, a: string, s: string)
    requires |qs| == |ans| == |srcs|
    ensures Zip3(qs + [q], ans + [a], srcs + [s]) == Zip3(qs, ans, srcs) + [Turn(q, a, s)]
    decreases |qs|
  {
    if qs == [] {
      assert ans == [] && srcs == [];
    } else {
      assert (qs + [q])[1..] == qs[1..] + [q];
      assert (ans + [a])[1..] == ans[1..] + [a];
      assert (srcs + [s])[1..] == srcs[1..] + [s];
      Zip3Snoc(qs[1..], ans[1..], srcs[1..], q, a, s);
    }
  }

  lemma OddsSnoc2(s: seq<string>, x: string, y: string)
    requires |s| % 2 == 0
    ensures Odds(s + [x, y]) == Odds(s) + [y]
  {
    var longer := s + [x, y];
    if s == [] {
      assert longer[1..] == [y];
    } else {
      assert longer[1..] == s[1..] + [x, y];
      EveryOtherSnoc2(s[1..], x, y);
    }
  }

  /** Handling one question adds exactly one turn, at the end, and keeps the earlier ones. */
  lemma PairsAppend(chat: seq<string>, sources: seq<string>, q: string, a: string, s: string)
    requires |chat| == 2 * |sources|
    ensures Pairs(chat + [q, a], sources + [s]) == Pairs(chat, sources) + [Turn(q, a, s)]
  {
    EveryOtherSnoc2(chat, q, a);
    OddsSnoc2(chat, q, a);
    Zip3Snoc(EveryOther(chat), Odds(chat), sources, q, a, s);
  }

  // ---------------------------------------------------------------------
  // Session state (app.py:70-83) and its transitions
  // ---------------------------------------------------------------------

  /** Python truthiness of what `st.chat_input` returns: `None` and `""` are false. */
  predicate Truthy(question: Option<string>) {
    question.Some? && question.value != ""
  }

  /** What the Load button reports (app.py:149-161). */
  datatype LoadResult = Loaded | MissingPath | NotPresent

  /**
   * `st.session_state`. The `has…` fields say whether the session's
   * `document_retrieval`, `vectorstore` and `conversation` are set.
   */
  class Session {
    var chatHistory: seq<string>
    var sourcesHistory: seq<string>
    var showSources: bool
    var inputDisabled: bool
    var hasRetrieval: bool
    var hasVectorstore: bool
    var hasConversation: bool

    /**
     * Two chat entries (question, answer) per sources entry; the question box
     * is enabled only once a conversation chain exists; a chain exists only
     * once the retrieval helper does.
     */
    ghost predicate Valid()
      reads this
    {
      |chatHistory| == 2 * |sourcesHistory| &&
      (!inputDisabled ==> hasConversation) &&
      (hasConversation ==> hasRetrieval) &&
      (hasVectorstore ==> hasRetrieval)
    }

    /** The defaults `main` installs in a fresh session (app.py:70-83). */
    constructor ()
      ensures Valid()
      ensures chatHistory == [] && sourcesHistory == []
      ensures showSources && inputDisabled
      ensures !hasRetrieval && !hasVectorstore && !hasConversation
    {
      chatHistory := [];
      sourcesHistory := [];
      showSources := true;
      inputDisabled := true;
      hasRetrieval := false;
      hasVectorstore := false;
      hasConversation := false;
    }

    /** Once both credentials are set, the retrieval helper is created, once (app.py:94-97). */
    method SetCredentials(url: string, apiKey: string)
      requires Valid()
      modifies this
      ensures Valid()
      ensures hasRetrieval == (old(hasRetrieval) || (url != "" && apiKey != ""))
      ensures chatHistory == old(chatHistory) && sourcesHistory == old(sourcesHistory)
      ensures inputDisabled == old(inputDisabled) && showSources == old(showSources)
      ensures hasVectorstore == old(hasVectorstore) && hasConversation == old(hasConversation)
    {
      if url != "" && apiKey != "" {
        if !hasRetrieval {
          hasRetrieval := true;
        }
      }
    }

    /**
     * The "Process" and "Process and Save database" buttons (app.py:115-124,
     * 127-136): build a vector store and a chain, then enable the question box.
     * Both buttons are drawn only when the retrieval helper exists (app.py:101).
     */
    method Process()
      requires Valid() && hasRetrieval
      modifies this
      ensures Valid()
      ensures hasVectorstore && hasConversation && !inputDisabled
      ensures hasRetrieval && showSources == old(showSources)
      ensures chatHistory == old(chatHistory) && sourcesHistory == old(sourcesHistory)
    {
      hasVectorstore := true;
      hasConversation := true;
      inputDisabled := false;
    }

    /**
     * The "Load" button (app.py:147-161): an empty path or a path that does
     * not exist reports an error and changes nothing; otherwise the stored
     * vector store is loaded and the question box is enabled.
     */
    method Load(dbPath: string, pathExists: bool) returns (result: LoadResult)
      requires Valid() && hasRetrieval
      modifies this
      ensures Valid()
      ensures result == (if dbPath == "" then MissingPath else if !pathExists then NotPresent else Loaded)
      ensures result == Loaded ==> hasVectorstore && hasConversation && !inputDisabled
      ensures result != Loaded ==>
                inputDisabled == old(inputDisabled) && hasVectorstore == old(hasVectorstore) &&
                hasConversation == old(hasConversation)
      ensures hasRetrieval && showSources == old(showSources)
      ensures chatHistory == old(chatHistory) && sourcesHistory == old(sourcesHistory)
    {
      if dbPath == "" {
        result := MissingPath;
      } else if pathExists {
        hasVectorstore := true;
        hasConversation := true;
        inputDisabled := false;
        result := Loaded;
      } else {
        result := NotPresent;
      }
    }

    /**
     * The "Show sources" checkbox (app.py:170). Its key binds it to
     * `show_sources`, so ticking or clearing it sets the flag.
     */
    method SetShowSources(show: bool)
      requires Valid()
      modifies this
      ensures Valid()
      ensures showSources == show
      ensures chatHistory == old(chatHistory) && sourcesHistory == old(sourcesHistory)
      ensures inputDisabled == old(inputDisabled)
      ensures hasRetrieval == old(hasRetrieval) && hasVectorstore == old(hasVectorstore)
      ensures hasConversation == old(hasConversation)
    {
      showSources := show;
    }

    /** The "Reset conversation" button (app.py:176-178), drawn under the same condition. */
    method Reset()
      requires Valid() && hasRetrieval
      modifies this
      ensures Valid()
      ensures chatHistory == [] && sourcesHistory == []
      ensures inputDisabled == old(inputDisabled) && showSources == old(showSources)
      ensures hasRetrieval && hasVectorstore == old(hasVectorstore) && hasConversation == old(hasConversation)
    {
      chatHistory := [];
      sourcesHistory := [];
    }

    /**
     * `handle_userinput` (app.py:22-39). A truthy question needs the chain,
     * whose `invoke` gave `answer` and the source documents' `filenames`.
     */
    method HandleUserInput(question: Option<string>, answer: string, filenames: seq<string>)
      returns (ghost sourcesText: string)
      requires Valid()
      requires Truthy(question) ==> hasConversation
      modifies this
      ensures Valid()
      ensures !Truthy(question) ==> chatHistory == old(chatHistory) && sourcesHistory == old(sourcesHistory)
      ensures Truthy(question) ==>
                chatHistory == old(chatHistory) + [question.value, answer] &&
                sourcesHistory == old(sourcesHistory) + [sourcesText]
      ensures Truthy(question) ==> ListsSources(sourcesText, filenames)
      ensures Truthy(question) ==>
                Pairs(chatHistory, sourcesHistory) ==
                Pairs(old(chatHistory), old(sourcesHistory)) + [Turn(question.value, answer, sourcesText)]
      ensures inputDisabled == old(inputDisabled) && showSources == old(showSources)
      ensures hasRetrieval == old(hasRetrieval) && hasVectorstore == old(hasVectorstore)
      ensures hasConversation == old(hasConversation)
    {
      sourcesText := "";
      if Truthy(question) {
        var text, order := BuildSourcesText(filenames);
        ListsSourcesWitness(text, filenames, order);
        PairsAppend(chatHistory, sourcesHistory, question.value, answer, text);
        chatHistory := chatHistory + [question.value, answer];
        sourcesHistory := sourcesHistory + [text];
        sourcesText := text;
      }
    }

    /**
     * The end of `main` (app.py:183-184): a disabled `st.chat_input` yields
     * `None`, so nothing typed reaches the histories before a database exists.
     */
    method ChatTurn(typed: Option<string>, answer: string, filenames: seq<string>)
      requires Valid()
      modifies this
      ensures Valid()
      ensures old(inputDisabled) || !Truthy(typed) ==>
                chatHistory == old(chatHistory) && sourcesHistory == old(sourcesHistory)
      ensures !old(inputDisabled) && Truthy(typed) ==>
                chatHistory == old(chatHistory) + [typed.value, answer] &&
                sourcesHistory == old(sourcesHistory) + [sourcesHistory[|sourcesHistory| - 1]] &&
                ListsSources(sourcesHistory[|sourcesHistory| - 1], filenames)
      ensures inputDisabled == old(inputDisabled) && showSources == old(showSources)
      ensures hasRetrieval == old(hasRetrieval) && hasVectorstore == old(hasVectorstore)
      ensures hasConversation == old(hasConversation)
    {
      var question := if inputDisabled then None else typed;
      ghost var sourcesText := HandleUserInput(question, answer, filenames);
      if Truthy(question) {
        assert sourcesHistory[|sourcesHistory| - 1] == sourcesText;
      }
    }
  }
}

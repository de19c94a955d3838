/**
 * The agent's "Interested Clients" dialog of
 * frontend/src/features/agent/InterestedClientsModal.tsx: the initials
 * badge, and the choice between the loading, error and list views.
 */
module InterestedClientsModal {
  import opened Common
  import opened Text

  /** `n[0]` of a word, joined: an empty word has no first character and contributes nothing. */
  function Head(word: string): (r: string)
    ensures |r| <= 1
    ensures word != "" ==> r == [word[0]]
    ensures word == "" ==> r == ""
  {
    if word == "" then "" else word[..1]
  }

  /** `parts.join("")`. */
  function Concat(parts: seq<string>): string
  {
    if parts == [] then "" else parts[0] + Concat(parts[1..])
  }

  function Min(a: nat, b: nat): nat
  {
    if a <= b then a else b
  }

  /** `name.split(" ").map((n) => n[0]).slice(0, 2).join("").toUpperCase()`. */
  function Initials(name: string): (r: string)
  {
    var words := Split(name, ' ');
    var heads := seq(|words|, i requires 0 <= i < |words| => Head(words[i]));
    Upper(Concat(heads[..Min(2, |heads|)]))
  }

  /** The initials of a name whose first one or two words are `words`. */
  lemma InitialsOfWords(name: string)
    ensures var words := Split(name, ' ');
      && (|words| == 1 ==> Initials(name) == Upper(Head(words[0])))
      && (|words| >= 2 ==> Initials(name) == Upper(Head(words[0]) + Head(words[1])))
  {
    var words := Split(name, ' ');
    var heads := seq(|words|, i requires 0 <= i < |words| => Head(words[i]));
    if |words| == 1 {
      assert heads[..1] == [Head(words[0])];
      assert Concat([Head(words[0])]) == Head(words[0]) + Concat([]);
    } else {
      var two := heads[..2];
      assert two == [Head(words[0]), Head(words[1])];
      assert two[1..] == [Head(words[1])];
      assert Concat(two[1..]) == Head(words[1]) + Concat([]);
    }
  }

  /** The badge has at most two characters. */
  lemma InitialsShort(name: string)
    ensures |Initials(name)| <= 2
  {
    InitialsOfWords(name);
  }

  /**
   * Each character of the badge is the upper-cased first character of one of
   * the first two space-separated words, and each of those two words that is
   * not empty gives its character.
   */
  lemma InitialsFromFirstTwoWords(name: string)
    ensures var words := Split(name, ' ');
      var r := Initials(name);
      && (forall i :: 0 <= i < |r| ==>
            exists k :: 0 <= k < Min(2, |words|) && words[k] != "" && r[i] == UpperChar(words[k][0]))
      && (forall k :: 0 <= k < Min(2, |words|) && words[k] != "" ==> UpperChar(words[k][0]) in r)
  {
    InitialsOfWords(name);
    var words := Split(name, ' ');
    var r := Initials(name);
    if |words| >= 2 {
      var joined := Head(words[0]) + Head(words[1]);
      assert r == Upper(joined);
      forall i | 0 <= i < |r|
        ensures exists k :: 0 <= k < Min(2, |words|) && words[k] != "" && r[i] == UpperChar(words[k][0])
      {
        if i < |Head(words[0])| {
          assert r[i] == UpperChar(words[0][0]);
        } else {
          assert joined[i] == Head(words[1])[i - |Head(words[0])|];
          assert r[i] == UpperChar(words[1][0]);
        }
      }
      if words[0] != "" {
        assert r[0] == UpperChar(words[0][0]);
      }
      if words[1] != "" {
        assert r[|Head(words[0])|] == UpperChar(words[1][0]);
      }
    } else {
      forall i | 0 <= i < |r|
        ensures exists k :: 0 <= k < Min(2, |words|) && words[k] != "" && r[i] == UpperChar(words[k][0])
      {
        assert r[i] == UpperChar(words[0][0]);
      }
      if words[0] != "" {
        assert r[0] == UpperChar(words[0][0]);
      }
    }
  }

  /** Words after the second do not change the badge. */
  lemma InitialsIgnoreLaterWords(first: string, second: string, rest: string)
    requires ' ' !in first && ' ' !in second
    ensures Initials(first + " " + second + " " + rest) == Initials(first + " " + second)
  {
    var long := first + " " + second + " " + rest;
    var short := first + " " + second;
    assert long == first + [' '] + (second + [' '] + rest);
    assert short == first + [' '] + second;
    SplitAtSeparator(first, second + [' '] + rest, ' ');
    SplitAtSeparator(second, rest, ' ');
    SplitAtSeparator(first, second, ' ');
    SplitWhole(second, ' ');
    InitialsOfWords(long);
    InitialsOfWords(short);
  }

  /** A two-word name with non-empty words gives the two first letters, upper-cased. */
  lemma TwoWordName(first: string, second: string)
    requires ' ' !in first && ' ' !in second && first != "" && second != ""
    ensures Initials(first + " " + second) == [UpperChar(first[0]), UpperChar(second[0])]
  {
    assert first + " " + second == first + [' '] + second;
    SplitAtSeparator(first, second, ' ');
    SplitWhole(second, ' ');
    InitialsOfWords(first + " " + second);
  }

  // ------------------------------------------------------------- the views

  /** One element of `data.data`: an interest with its client's name and email filled in. */
  datatype ClientInterest = ClientInterest(id: string, clientName: string, clientEmail: string, message: Option<string>)

  /** A card of the list: the badge, the name, a `mailto:` of the email, and the quoted message when there is one. */
  datatype Card = Card(initials: string, name: string, mailto: string, quote: Option<string>)

  datatype ModalView =
    | Loading                                                     // "Loading details..."
    | LoadFailed                                                  // "Unable to Load"
    | Leads(count: nat, emptyNotice: bool, cards: seq<Card>)     // "{count} potential leads"

  function CardOf(c: ClientInterest): Card
  {
    Card(Initials(c.clientName), c.clientName, "mailto:" + c.clientEmail,
         if c.message.Some? && c.message.value != "" then c.message else None)
  }

  function View(isLoading: bool, isError: bool, data: Option<seq<ClientInterest>>): ModalView
  {
    if isLoading then Loading
    else if isError then LoadFailed
    else
      var clients := if data.Some? then data.value else [];
      Leads(|clients|, |clients| == 0, seq(|clients|, i requires 0 <= i < |clients| => CardOf(clients[i])))
  }

  /**
   * Loading wins over an error, and an error over the list. The list shows
   * one card per interest, in order; the count is the number of interests
   * and the empty notice shows iff it is zero.
   */
  lemma ViewMeaning(isLoading: bool, isError: bool, data: Option<seq<ClientInterest>>)
    ensures isLoading ==> View(isLoading, isError, data) == Loading
    ensures !isLoading && isError ==> View(isLoading, isError, data) == LoadFailed
    ensures !isLoading && !isError ==>
      var clients := if data.Some? then data.value else [];
      var v := View(isLoading, isError, data);
      && v.Leads? && v.count == |clients| == |v.cards|
      && (v.emptyNotice <==> v.count == 0)
      && (forall i :: 0 <= i < |clients| ==> v.cards[i].initials == Initials(clients[i].clientName) && |v.cards[i].initials| <= 2)
  {
    if !isLoading && !isError {
      var clients := if data.Some? then data.value else [];
      var v := View(isLoading, isError, data);
      forall i | 0 <= i < |clients|
        ensures v.cards[i].initials == Initials(clients[i].clientName) && |v.cards[i].initials| <= 2
      {
        assert v.cards[i] == CardOf(clients[i]);
        InitialsShort(clients[i].clientName);
      }
    }
  }
}

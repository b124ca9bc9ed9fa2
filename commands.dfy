/** What each command of the dog assistant does to its session, as functions
    of the session and of the answers its collaborators give (the dog API,
    the image host, the file system, Wikipedia). Each function returns the new
    session, the phrases spoken, the external calls made and how the operation
    ended. The class in module Assistant runs the same operations in place and
    is proved against these functions. */
module Commands {
  import opened Basics
  import opened Text

  // ---------------------------------------------------------------------------
  // Constants of lab_10.py
  // ---------------------------------------------------------------------------

  const DogApiUrl := "https://dog.ceo/api/breeds/image/random"

  /** Number of sentences asked of Wikipedia. */
  const SummarySentences := 2

  // Trigger phrases, in the order handle_command tests them.
  const NextTrigger := "следующая"
  const ShowTrigger := "показать"
  const SaveTrigger := "сохранить"
  const BreedTrigger := "назови породу"
  const BreedInfoTrigger := "расскажи о породе"

  // Phrases spoken.
  const Loaded := "Загружено новое изображение собаки."
  const FetchFailed := "Не удалось получить изображение собаки."
  const LoadError := "Ошибка при загрузке изображения."
  const HereIsImage := "Вот изображение собаки."
  const LoadWithNextFirst := "Сначала загрузите изображение командой 'следующая'."
  const SaveFailed := "Не удалось сохранить изображение."
  const NothingToSave := "Нет изображения для сохранения."
  const LoadFirst := "Сначала загрузите изображение."
  const LookupFailed := "Произошла ошибка при поиске информации."
  const NotUnderstood := "Я не понял команду. Попробуйте ещё раз."

  function SavedAs(filename: string): string { "Изображение сохранено как " + filename + "." }
  function BreedIs(breed: string): string { "Порода собаки: " + breed + "." }
  function BreedSummary(breed: string, summary: string): string
  {
    "Вот что я нашёл о породе " + breed + ": " + summary
  }
  function BreedNotFound(breed: string): string { "Не удалось найти информацию о породе " + breed + "." }

  // ---------------------------------------------------------------------------
  // Session and effects
  // ---------------------------------------------------------------------------

  /** The two session fields: `current_image_url` ("" when none) and
      `current_image_data` (None when none). */
  datatype Session = Session(url: string, data: Option<Bytes>)

  /** The session as the constructor leaves it. */
  const Initial := Session("", None)

  /** Python's truth value of `current_image_url`. */
  predicate HasUrl(s: Session): (r: bool)
    ensures r <==> |s.url| > 0
  {
    s.url != ""
  }

  /** Python's truth value of `current_image_data`: neither None nor empty. */
  predicate HasData(s: Session): (r: bool)
    ensures r <==> s.data.Some? && |s.data.value| > 0
  {
    s.data.Some? && s.data.value != []
  }

  /** An external call the assistant makes. */
  datatype Call =
    | HttpGet(url: string)
    | OpenInBrowser(url: string)
    | WriteFile(name: string, content: Bytes)
    | WikipediaSummary(term: string, sentences: nat)

  /** The JSON body of the dog API's answer: not a JSON object, or an object
      with or without a string under "message". */
  datatype Body = Unparseable | Parsed(message: Option<string>)

  /** What `requests.get(DOG_API_URL)` does: raise, or answer. */
  datatype ApiReply = ApiRaises | ApiResponse(status: int, body: Body)

  /** What `requests.get(url, stream=True).content` does. */
  datatype ImageReply = ImageRaises | ImageContent(content: Bytes)

  /** Whether opening and writing the file succeeds. */
  datatype WriteReply = WriteSucceeds | WriteRaises

  /** What `wikipedia.summary(breed, sentences=2)` does. */
  datatype WikiReply = Summary(text: string) | PageError | LookupRaises

  /** The answers the collaborators give during one command, used only by the
      operation that calls them. */
  datatype Replies = Replies(api: ApiReply, image: ImageReply, write: WriteReply, wiki: WikiReply)

  /** How an operation ends: it returns None, it returns a boolean, or
      `split("/")[-2]` raises an IndexError that nothing catches. */
  datatype Outcome = Normal | Returned(ok: bool) | IndexError

  datatype Step = Step(session: Session, said: seq<string>, calls: seq<Call>, outcome: Outcome)

  // ---------------------------------------------------------------------------
  // Breed and file name
  // ---------------------------------------------------------------------------

  /** `url.split("/")[-2]`: the second-to-last `/`-separated segment, or None
      where Python raises IndexError (fewer than two segments). */
  function Breed(url: string): (r: Option<string>)
    ensures r.Some? <==> '/' in url
    ensures r.Some? ==> '/' !in r.value
  {
    SplitCount(url, '/');
    SplitPieces(url, '/');
    var parts := Split(url, '/');
    if |parts| >= 2 then Some(parts[|parts| - 2]) else None
  }

  /** The breed of a locator ".../<breed>/<file>" is the segment before the
      file name, whatever comes before it. */
  lemma BreedOfPath(prefix: string, breed: string, file: string)
    requires '/' !in breed && '/' !in file
    ensures Breed(prefix + "/" + breed + "/" + file) == Some(breed)
    ensures Breed(breed + "/" + file) == Some(breed)
  {
    SplitWhole(breed, '/');
    SplitWhole(file, '/');
    SplitAround(breed, '/', file);
    SplitAround(prefix, '/', breed + "/" + file);
    assert prefix + "/" + breed + "/" + file == prefix + ['/'] + (breed + ['/'] + file);
  }

  /** The sample locator from the dog API, cut at its separators. */
  lemma DogApiLocatorParts(url: string)
    requires url == "https://images.dog.ceo/breeds/hound-afghan/n02088094_1003.jpg"
    ensures url == "https://images.dog.ceo/breeds" + "/" + "hound-afghan" + "/" + "n02088094_1003.jpg"
  {
  }

  /** The locators the dog API hands out give the breed the URL names. */
  lemma BreedOfDogApiLocator(url: string)
    requires url == "https://images.dog.ceo/breeds/hound-afghan/n02088094_1003.jpg"
    ensures Breed(url) == Some("hound-afghan")
  {
    DogApiLocatorParts(url);
    BreedOfPath("https://images.dog.ceo/breeds", "hound-afghan", "n02088094_1003.jpg");
  }

  /** The name save_image writes to: `f"dog_{breed}.jpg"`. */
  function SaveFileName(breed: string): (name: string)
    ensures |name| == |breed| + 8
    ensures name[..4] == "dog_" && name[|name| - 4..] == ".jpg"
    ensures name[4..|name| - 4] == breed
  {
    "dog_" + breed + ".jpg"
  }

  // ---------------------------------------------------------------------------
  // Classification
  // ---------------------------------------------------------------------------

  /** Which branch of handle_command a command takes. */
  datatype Intent = FetchNext | Show | Save | DescribeBreed | DescribeBreedInfo | Unknown

  /** Position of an intent's test in the if/elif chain. */
  function Rank(i: Intent): nat
  {
    match i
    case FetchNext => 0
    case Show => 1
    case Save => 2
    case DescribeBreed => 3
    case DescribeBreedInfo => 4
    case Unknown => 5
  }

  function TriggerOf(i: Intent): string
    requires i != Unknown
  {
    match i
    case FetchNext => NextTrigger
    case Show => ShowTrigger
    case Save => SaveTrigger
    case DescribeBreed => BreedTrigger
    case DescribeBreedInfo => BreedInfoTrigger
  }

  /** The if/elif chain of handle_command: the chosen intent's trigger occurs
      in the command, and no trigger tested earlier does; Unknown exactly when
      no trigger occurs. */
  function Classify(command: string): (r: Intent)
    ensures r != Unknown ==> Contains(command, TriggerOf(r))
    ensures forall i :: i != Unknown && Contains(command, TriggerOf(i)) ==> Rank(r) <= Rank(i)
  {
    if Contains(command, NextTrigger) then FetchNext
    else if Contains(command, ShowTrigger) then Show
    else if Contains(command, SaveTrigger) then Save
    else if Contains(command, BreedTrigger) then DescribeBreed
    else if Contains(command, BreedInfoTrigger) then DescribeBreedInfo
    else Unknown
  }

  /** The same decision as a table read top to bottom. */
  const Triggers: seq<(string, Intent)> := [
    (NextTrigger, FetchNext), (ShowTrigger, Show), (SaveTrigger, Save),
    (BreedTrigger, DescribeBreed), (BreedInfoTrigger, DescribeBreedInfo)]

  /** The intent of the first table row whose phrase occurs in the command. */
  function FirstMatch(table: seq<(string, Intent)>, command: string): (r: Intent)
  {
    if table == [] then Unknown
    else if Contains(command, table[0].0) then table[0].1
    else FirstMatch(table[1..], command)
  }

  /** The if/elif chain is the first-match rule over the trigger table. */
  lemma ClassifyIsFirstMatch(command: string)
    ensures Classify(command) == FirstMatch(Triggers, command)
  {
    var t0 := Triggers;
    var t1 := [(ShowTrigger, Show), (SaveTrigger, Save), (BreedTrigger, DescribeBreed), (BreedInfoTrigger, DescribeBreedInfo)];
    var t2 := [(SaveTrigger, Save), (BreedTrigger, DescribeBreed), (BreedInfoTrigger, DescribeBreedInfo)];
    var t3 := [(BreedTrigger, DescribeBreed), (BreedInfoTrigger, DescribeBreedInfo)];
    var t4 := [(BreedInfoTrigger, DescribeBreedInfo)];
    assert t0[1..] == t1 && t1[1..] == t2 && t2[1..] == t3 && t3[1..] == t4 && t4[1..] == [];
    var c := command;
    assert FirstMatch(t4, c) == if Contains(c, BreedInfoTrigger) then DescribeBreedInfo else Unknown;
    assert FirstMatch(t3, c) == if Contains(c, BreedTrigger) then DescribeBreed else FirstMatch(t4, c);
    assert FirstMatch(t2, c) == if Contains(c, SaveTrigger) then Save else FirstMatch(t3, c);
    assert FirstMatch(t1, c) == if Contains(c, ShowTrigger) then Show else FirstMatch(t2, c);
    assert FirstMatch(t0, c) == if Contains(c, NextTrigger) then FetchNext else FirstMatch(t1, c);
  }

  /** A command with several triggers goes to the earliest one: "show" beats
      "save" and "name the breed". */
  lemma ShowBeatsLaterTriggers(a: string, b: string)
    requires !Contains(a + ShowTrigger + b, NextTrigger)
    ensures Classify(a + ShowTrigger + b) == Show
  {
    ContainsInfix(a, ShowTrigger, b);
  }

  /** Empty and unrelated commands are not understood. */
  lemma UnknownCommands()
    ensures Classify("") == Unknown
    ensures Classify("гав") == Unknown
  {
  }

  // ---------------------------------------------------------------------------
  // Operations
  // ---------------------------------------------------------------------------

  /** The locator fetch_random_dog stores at line 79: present when the API
      answered 200 with a JSON object holding "message". */
  function MessageOf(api: ApiReply): (m: Option<string>)
    ensures m.Some? <==> api.ApiResponse? && api.status == 200 && api.body.Parsed? && api.body.message.Some?
    ensures m.Some? ==> m.value == api.body.message.value
  {
    if api.ApiResponse? && api.status == 200 && api.body.Parsed? then api.body.message else None
  }

  /** fetch_random_dog. The URL is assigned before the image is requested, so
      when the image request raises, the URL has changed and the data has not. */
  function FetchStep(s: Session, api: ApiReply, image: ImageReply): (r: Step)
    ensures r.outcome == Returned(MessageOf(api).Some? && image.ImageContent?)
    ensures r.session.url == if MessageOf(api).Some? then MessageOf(api).value else s.url
    ensures r.session.data == if MessageOf(api).Some? && image.ImageContent? then Some(image.content) else s.data
    ensures r.said == if r.outcome.ok then []
                      else if api.ApiResponse? && api.status != 200 then [FetchFailed]
                      else [LoadError]
    ensures r.calls == [HttpGet(DogApiUrl)] + if MessageOf(api).Some? then [HttpGet(MessageOf(api).value)] else []
  {
    match api
    case ApiRaises => Step(s, [LoadError], [HttpGet(DogApiUrl)], Returned(false))
    case ApiResponse(status, body) =>
      if status != 200 then Step(s, [FetchFailed], [HttpGet(DogApiUrl)], Returned(false))
      else
        match body
        case Parsed(Some(message)) =>
          var withUrl := s.(url := message);
          var calls := [HttpGet(DogApiUrl), HttpGet(message)];
          (match image
           case ImageRaises => Step(withUrl, [LoadError], calls, Returned(false))
           case ImageContent(content) => Step(withUrl.(data := Some(content)), [], calls, Returned(true)))
        case _ => Step(s, [LoadError], [HttpGet(DogApiUrl)], Returned(false))
  }

  /** show_image. */
  function ShowStep(s: Session): (r: Step)
    ensures r.session == s && r.outcome == Normal
    ensures r.calls == if HasUrl(s) then [OpenInBrowser(s.url)] else []
    ensures r.said == if HasUrl(s) then [HereIsImage] else [LoadWithNextFirst]
  {
    if HasUrl(s) then Step(s, [HereIsImage], [OpenInBrowser(s.url)], Normal)
    else Step(s, [LoadWithNextFirst], [], Normal)
  }

  /** save_image. The breed is derived inside the try block, so an IndexError
      there is caught and reported like a failed write. */
  function SaveStep(s: Session, write: WriteReply): (r: Step)
    ensures r.session == s && r.outcome == Normal && |r.said| == 1
    ensures !HasData(s) ==> r.said == [NothingToSave] && r.calls == []
    ensures HasData(s) && Breed(s.url).None? ==> r.said == [SaveFailed] && r.calls == []
    ensures HasData(s) && Breed(s.url).Some? ==>
              r.calls == [WriteFile(SaveFileName(Breed(s.url).value), s.data.value)]
              && r.said[0] == if write.WriteSucceeds? then SavedAs(SaveFileName(Breed(s.url).value)) else SaveFailed
  {
    if HasData(s) then
      match Breed(s.url)
      case None => Step(s, [SaveFailed], [], Normal)
      case Some(breed) =>
        var filename := SaveFileName(breed);
        var said := if write.WriteSucceeds? then SavedAs(filename) else SaveFailed;
        Step(s, [said], [WriteFile(filename, s.data.value)], Normal)
    else Step(s, [NothingToSave], [], Normal)
  }

  /** get_breed. The breed is derived outside any try block. */
  function BreedStep(s: Session): (r: Step)
    ensures r.session == s && r.calls == []
    ensures !HasUrl(s) ==> r.said == [LoadFirst] && r.outcome == Normal
    ensures HasUrl(s) && Breed(s.url).None? ==> r.said == [] && r.outcome == IndexError
    ensures HasUrl(s) && Breed(s.url).Some? ==> r.said == [BreedIs(Breed(s.url).value)] && r.outcome == Normal
  {
    if HasUrl(s) then
      match Breed(s.url)
      case None => Step(s, [], [], IndexError)
      case Some(breed) => Step(s, [BreedIs(breed)], [], Normal)
    else Step(s, [LoadFirst], [], Normal)
  }

  /** The phrase get_breed_info speaks for Wikipedia's answer. */
  function InfoPhrase(breed: string, wiki: WikiReply): (phrase: string)
    ensures wiki.LookupRaises? <==> phrase == LookupFailed
    ensures !wiki.LookupRaises? ==> Contains(phrase, breed)
    ensures wiki.Summary? ==> Contains(phrase, wiki.text)
  {
    match wiki
    case Summary(text) =>
      var head := "Вот что я нашёл о породе ";
      assert BreedSummary(breed, text) == head + breed + (": " + text);
      assert BreedSummary(breed, text) == (head + breed + ": ") + text + "";
      ContainsInfix(head, breed, ": " + text);
      ContainsInfix(head + breed + ": ", text, "");
      assert BreedSummary(breed, text)[0] != LookupFailed[0];
      BreedSummary(breed, text)
    case PageError =>
      ContainsInfix("Не удалось найти информацию о породе ", breed, ".");
      assert BreedNotFound(breed)[0] != LookupFailed[0];
      BreedNotFound(breed)
    case LookupRaises => LookupFailed
  }

  /** get_breed_info. The breed is derived outside the try block; only the
      Wikipedia lookup is guarded. */
  function BreedInfoStep(s: Session, wiki: WikiReply): (r: Step)
    ensures r.session == s
    ensures !HasUrl(s) ==> r.said == [LoadFirst] && r.calls == [] && r.outcome == Normal
    ensures HasUrl(s) && Breed(s.url).None? ==> r.said == [] && r.calls == [] && r.outcome == IndexError
    ensures HasUrl(s) && Breed(s.url).Some? ==>
              r.calls == [WikipediaSummary(Breed(s.url).value, SummarySentences)]
              && r.said == [InfoPhrase(Breed(s.url).value, wiki)] && r.outcome == Normal
  {
    if HasUrl(s) then
      match Breed(s.url)
      case None => Step(s, [], [], IndexError)
      case Some(breed) => Step(s, [InfoPhrase(breed, wiki)], [WikipediaSummary(breed, SummarySentences)], Normal)
    else Step(s, [LoadFirst], [], Normal)
  }

  /** handle_command: classify, then run the one operation of that branch.
      Only a FetchNext command changes the session; an unknown command says
      that it was not understood and calls nothing. */
  function CommandStep(s: Session, command: string, replies: Replies): (r: Step)
    ensures r.outcome != IndexError ==> r.outcome == Normal
    ensures Classify(command) != FetchNext ==> r.session == s
    ensures Classify(command) == Unknown ==> r.said == [NotUnderstood] && r.calls == []
    ensures Classify(command) == Show ==> r == ShowStep(s)
    ensures Classify(command) == Save ==> r == SaveStep(s, replies.write)
    ensures Classify(command) == DescribeBreed ==> r == BreedStep(s)
    ensures Classify(command) == DescribeBreedInfo ==> r == BreedInfoStep(s, replies.wiki)
    ensures r.outcome == IndexError <==>
              Classify(command) in {DescribeBreed, DescribeBreedInfo} && HasUrl(s) && Breed(s.url).None?
    ensures Classify(command) == FetchNext ==>
              var f := FetchStep(s, replies.api, replies.image);
              r.session == f.session && r.calls == f.calls
              && r.said == f.said + if f.outcome.ok then [Loaded] else []
  {
    match Classify(command)
    case FetchNext =>
      var f := FetchStep(s, replies.api, replies.image);
      Step(f.session, f.said + if f.outcome.ok then [Loaded] else [], f.calls, Normal)
    case Show => ShowStep(s)
    case Save => SaveStep(s, replies.write)
    case DescribeBreed => BreedStep(s)
    case DescribeBreedInfo => BreedInfoStep(s, replies.wiki)
    case Unknown => Step(s, [NotUnderstood], [], Normal)
  }

  // ---------------------------------------------------------------------------
  // Properties across operations
  // ---------------------------------------------------------------------------

  /** "Загружено новое изображение собаки." is spoken by a command exactly when
      it is a FetchNext command whose fetch returned True. */
  lemma LoadedOnlyAfterSuccessfulFetch(s: Session, command: string, replies: Replies)
    ensures Loaded in CommandStep(s, command, replies).said
            <==> Classify(command) == FetchNext && FetchStep(s, replies.api, replies.image).outcome == Returned(true)
  {
    var r := CommandStep(s, command, replies);
    match Classify(command)
    case FetchNext =>
    case Show =>
    case Save =>
      if HasData(s) && Breed(s.url).Some? && replies.write.WriteSucceeds? {
        assert SavedAs(SaveFileName(Breed(s.url).value))[0] != Loaded[0];
      }
    case DescribeBreed =>
      if HasUrl(s) && Breed(s.url).Some? {
        assert BreedIs(Breed(s.url).value)[0] != Loaded[0];
      }
    case DescribeBreedInfo =>
      if HasUrl(s) && Breed(s.url).Some? {
        var b := Breed(s.url).value;
        assert BreedSummary(b, "")[0] != Loaded[0];
        assert BreedNotFound(b)[0] != Loaded[0];
        if replies.wiki.Summary? {
          assert BreedSummary(b, replies.wiki.text)[0] != Loaded[0];
        }
      }
    case Unknown =>
  }

  /** Save, get_breed and get_breed_info read the same breed off the same URL:
      the file name, the spoken breed and the Wikipedia term agree. */
  lemma BreedAgreesAcrossCommands(s: Session, replies: Replies, breed: string)
    requires HasData(s) && Breed(s.url) == Some(breed)
    ensures SaveStep(s, replies.write).calls == [WriteFile(SaveFileName(breed), s.data.value)]
    ensures BreedStep(s).said == [BreedIs(breed)]
    ensures BreedInfoStep(s, replies.wiki).calls == [WikipediaSummary(breed, SummarySentences)]
  {
  }

  /** With nothing loaded, every command but FetchNext answers with its
      "load first" phrase (or "not understood") and calls nothing. */
  lemma GuardsOnEmptySession(command: string, replies: Replies)
    requires Classify(command) != FetchNext
    ensures var r := CommandStep(Initial, command, replies);
            r.session == Initial && r.calls == [] && r.outcome == Normal
            && (Classify(command) == Show ==> r.said == [LoadWithNextFirst])
            && (Classify(command) == Save ==> r.said == [NothingToSave])
            && (Classify(command) in {DescribeBreed, DescribeBreedInfo} ==> r.said == [LoadFirst])
            && (Classify(command) == Unknown ==> r.said == [NotUnderstood])
  {
  }

  // ---------------------------------------------------------------------------
  // The session after a history of fetches
  // ---------------------------------------------------------------------------

  /** The collaborators' answers to one fetch_random_dog call. */
  datatype FetchReplies = FetchReplies(api: ApiReply, image: ImageReply)

  /** The session after running the fetches of `history` in order. */
  function RunFetches(s: Session, history: seq<FetchReplies>): (r: Session)
    decreases |history|
  {
    if history == [] then s
    else RunFetches(FetchStep(s, history[0].api, history[0].image).session, history[1..])
  }

  /** The URL the most recent fetch that got a locator stored, whether or not
      its image then arrived. */
  function LatestUrl(history: seq<FetchReplies>, default: string): (url: string)
    decreases |history|
  {
    if history == [] then default
    else
      var last := history[|history| - 1];
      if MessageOf(last.api).Some? then MessageOf(last.api).value
      else LatestUrl(history[..|history| - 1], default)
  }

  /** The image content of the most recent fetch that fully succeeded. */
  function LatestData(history: seq<FetchReplies>, default: Option<Bytes>): (data: Option<Bytes>)
    decreases |history|
  {
    if history == [] then default
    else
      var last := history[|history| - 1];
      if MessageOf(last.api).Some? && last.image.ImageContent? then Some(last.image.content)
      else LatestData(history[..|history| - 1], default)
  }

  lemma {:induction false} RunFetchesSnoc(s: Session, history: seq<FetchReplies>, next: FetchReplies)
    ensures RunFetches(s, history + [next]) == FetchStep(RunFetches(s, history), next.api, next.image).session
    decreases |history|
  {
    if history != [] {
      assert (history + [next])[1..] == history[1..] + [next];
      RunFetchesSnoc(FetchStep(s, history[0].api, history[0].image).session, history[1..], next);
    }
  }

  /** After any run of fetches, the URL comes from the latest fetch that stored
      one and the data from the latest fetch that fully succeeded; the two may
      come from different fetches. */
  lemma {:induction false} RunFetchesLatest(s: Session, history: seq<FetchReplies>)
    ensures RunFetches(s, history) == Session(LatestUrl(history, s.url), LatestData(history, s.data))
    decreases |history|
  {
    if history != [] {
      var front, last := history[..|history| - 1], history[|history| - 1];
      assert history == front + [last];
      RunFetchesLatest(s, front);
      RunFetchesSnoc(s, front, last);
    }
  }

  /** A fetch whose image request raises leaves the new URL beside the old
      data: the pair is not updated as one. */
  lemma FetchIsNotAtomic()
    ensures var before := Session("https://images.dog.ceo/breeds/pug/a.jpg", Some([1 as byte]));
            var r := FetchStep(before, ApiResponse(200, Parsed(Some("https://images.dog.ceo/breeds/akita/b.jpg"))), ImageRaises);
            r.session == Session("https://images.dog.ceo/breeds/akita/b.jpg", Some([1 as byte]))
            && r.outcome == Returned(false)
  {
  }

  /** Telling about a breed Wikipedia has no page for names the breed. */
  lemma BreedInfoNotFound(s: Session)
    requires s.url == "https://images.dog.ceo/breeds/poodle/n02.jpg"
    ensures BreedInfoStep(s, PageError).said == [BreedNotFound("poodle")]
  {
    assert Breed(s.url) == Some("poodle") by {
      assert s.url == "https://images.dog.ceo/breeds" + "/" + "poodle" + "/" + "n02.jpg";
      BreedOfPath("https://images.dog.ceo/breeds", "poodle", "n02.jpg");
    }
  }
}

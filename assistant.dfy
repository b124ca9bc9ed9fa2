/** The DogAssistant object: the two session fields it updates in place, the
    phrases it speaks and the external calls it makes, kept as traces. Each
    method does what its counterpart in lab_10.py does and is proved to have
    the effect the matching step function of module Commands describes. */
module Assistant {
  import opened Basics
  import opened Text
  import opened Commands

  class DogAssistant {
    /** `current_image_url`; "" when nothing is loaded. */
    var currentImageUrl: string
    /** `current_image_data`; None when nothing is loaded. */
    var currentImageData: Option<Bytes>
    /** Every phrase passed to `speak`, in order. */
    var spoken: seq<string>
    /** Every external call made, in order. */
    var calls: seq<Call>

    function State(): Session
      reads this
    {
      Session(currentImageUrl, currentImageData)
    }

    /** The session fields as `__init__` leaves them. */
    constructor ()
      ensures State() == Initial && spoken == [] && calls == []
    {
      currentImageUrl := "";
      currentImageData := None;
      spoken := [];
      calls := [];
    }

    method Speak(text: string)
      modifies this`spoken
      ensures spoken == old(spoken) + [text]
    {
      spoken := spoken + [text];
    }

    method FetchRandomDog(api: ApiReply, image: ImageReply) returns (ok: bool)
      modifies this
      ensures var r := FetchStep(old(State()), api, image);
              State() == r.session && spoken == old(spoken) + r.said && calls == old(calls) + r.calls
              && r.outcome == Returned(ok)
    {
      calls := calls + [HttpGet(DogApiUrl)];
      if api.ApiRaises? {
        Speak(LoadError);
        return false;
      }
      if api.status != 200 {
        Speak(FetchFailed);
        return false;
      }
      if !(api.body.Parsed? && api.body.message.Some?) {
        // response.json() or data["message"] raised
        Speak(LoadError);
        return false;
      }
      currentImageUrl := api.body.message.value;
      calls := calls + [HttpGet(currentImageUrl)];
      if image.ImageRaises? {
        Speak(LoadError);
        return false;
      }
      currentImageData := Some(image.content);
      return true;
    }

    method ShowImage()
      modifies this`spoken, this`calls
      ensures var r := ShowStep(old(State()));
              spoken == old(spoken) + r.said && calls == old(calls) + r.calls
    {
      if currentImageUrl != "" {
        calls := calls + [OpenInBrowser(currentImageUrl)];
        Speak(HereIsImage);
      } else {
        Speak(LoadWithNextFirst);
      }
    }

    method SaveImage(write: WriteReply)
      modifies this`spoken, this`calls
      ensures var r := SaveStep(old(State()), write);
              spoken == old(spoken) + r.said && calls == old(calls) + r.calls
    {
      if currentImageData.Some? && currentImageData.value != [] {
        var breed := Breed(currentImageUrl);
        if breed.None? {
          // the IndexError is caught by the surrounding try
          Speak(SaveFailed);
          return;
        }
        var filename := SaveFileName(breed.value);
        calls := calls + [WriteFile(filename, currentImageData.value)];
        if write.WriteSucceeds? {
          Speak(SavedAs(filename));
        } else {
          Speak(SaveFailed);
        }
      } else {
        Speak(NothingToSave);
      }
    }

    /** Returns whether an IndexError escaped. */
    method GetBreed() returns (raised: bool)
      modifies this`spoken
      ensures var r := BreedStep(old(State()));
              spoken == old(spoken) + r.said && raised == (r.outcome == IndexError)
    {
      raised := false;
      if currentImageUrl != "" {
        var breed := Breed(currentImageUrl);
        if breed.None? {
          return true;
        }
        Speak(BreedIs(breed.value));
      } else {
        Speak(LoadFirst);
      }
    }

    /** Returns whether an IndexError escaped. */
    method GetBreedInfo(wiki: WikiReply) returns (raised: bool)
      modifies this`spoken, this`calls
      ensures var r := BreedInfoStep(old(State()), wiki);
              spoken == old(spoken) + r.said && calls == old(calls) + r.calls
              && raised == (r.outcome == IndexError)
    {
      raised := false;
      if currentImageUrl != "" {
        var breed := Breed(currentImageUrl);
        if breed.None? {
          return true;
        }
        calls := calls + [WikipediaSummary(breed.value, SummarySentences)];
        match wiki
        case Summary(text) => Speak(BreedSummary(breed.value, text));
        case PageError => Speak(BreedNotFound(breed.value));
        case LookupRaises => Speak(LookupFailed);
      } else {
        Speak(LoadFirst);
      }
    }

    /** Returns whether an IndexError escaped. */
    method HandleCommand(command: string, replies: Replies) returns (raised: bool)
      modifies this
      ensures var r := CommandStep(old(State()), command, replies);
              State() == r.session && spoken == old(spoken) + r.said && calls == old(calls) + r.calls
              && raised == (r.outcome == IndexError)
    {
      raised := false;
      if Contains(command, NextTrigger) {
        var ok := FetchRandomDog(replies.api, replies.image);
        if ok {
          Speak(Loaded);
        }
      } else if Contains(command, ShowTrigger) {
        ShowImage();
      } else if Contains(command, SaveTrigger) {
        SaveImage(replies.write);
      } else if Contains(command, BreedTrigger) {
        raised := GetBreed();
      } else if Contains(command, BreedInfoTrigger) {
        raised := GetBreedInfo(replies.wiki);
      } else {
        Speak(NotUnderstood);
      }
    }
  }
}

# Dog assistant: a Dafny model of its command core

`lab_10.py` is a voice assistant. It listens to the microphone, recognises
Russian speech, and reacts to five commands. "следующая" fetches a random dog
picture from dog.ceo. "показать" opens that picture in the browser. "сохранить"
saves it to a file named after the breed. "назови породу" says the breed.
"расскажи о породе" reads a two-sentence Wikipedia summary about the breed.

This project models the part of the `DogAssistant` class that decides what
happens:

- the session: the two fields `current_image_url` and `current_image_data`;
- `handle_command`: the ordered, first-match-wins trigger test;
- the five operations it dispatches to;
- deriving the breed from the URL (`url.split("/")[-2]`) and the file name `dog_<breed>.jpg`;
- the loop in `listen` that returns the first recogniser result that is not
  empty after `strip().lower()`.

Every external collaborator becomes an input, given as an outcome datatype:

- `ApiReply`: the dog API raises, or answers with a status and a JSON body;
- `ImageReply`: the image request raises, or delivers its content;
- `WriteReply`: the file write succeeds or raises;
- `WikiReply`: Wikipedia returns a summary, reports a missing page, or fails in some other way.

Each call to `speak` is appended to a trace of phrases. Each external call
(HTTP GET, opening the browser, writing the file, the Wikipedia lookup) is
appended to a trace of calls. This makes "no external call and no state
change" a statement the model can prove.

Files:

- `basics.dfy`: `Option`, and `byte` for binary content.
- `text.dfy`: the Python string operations the code uses: substring `in`, `split`/`join`, `strip`, `lower`. Substring `in`, `split` and `strip` are proved against independent characterisations (an occurrence at a position, the join round trip, a run surrounded by whitespace). For `lower` only its per-character definition, length, whitespace preservation and idempotence are proved; its case mapping is narrower than Python's (see "Left out").
- `commands.dfy`: one pure step function per operation. Each maps a session and the collaborators' answers to the new session, the phrases spoken, the calls made, and how the operation ended (returns None, returns a bool, or raises an IndexError that nothing catches). The file also holds the classifier and the properties that relate several operations.
- `assistant.dfy`: the `DogAssistant` class. It keeps the two session fields and the two traces as fields. Its methods update them in place, as the Python does, and each method is proved to have exactly the effect of its step function.
- `listening.dfy`: `listen` as a loop over the recogniser's reports.

## Where the model follows the code rather than the intended design

- **Fetching is not atomic.** One would expect a fetch to set the URL and the
  data together or not at all. The code does not do this. It assigns
  `current_image_url` (line 79) before it requests the image (line 80). If
  that request raises, the new URL stays and the old data stays beside it.
  `FetchStep` models this. `FetchIsNotAtomic` shows a concrete case.
  `RunFetchesLatest` says in general where each field comes from.
- **A URL without `/` crashes the assistant.** `get_breed` and
  `get_breed_info` compute `split("/")[-2]` outside any `try`. An IndexError
  there escapes `handle_command`. It also escapes `run`, which only catches
  `KeyboardInterrupt`. This URL is reachable: the API's "message" is stored
  unchecked. The model returns the outcome `IndexError` for it. In
  `save_image` the same computation is inside the `try`, so there it is
  reported as "Не удалось сохранить изображение.".
- The image response's status is never checked. Whatever content arrives is stored.
- `save_image` tests the truth value of `current_image_data`. So empty
  content counts as "nothing to save", just like `None`.

## Model

| member | source | states |
|---|---|---|
| Text.Contains | lab_10.py:139-149 | `trigger in command` holds when the command starts with the trigger, and only when the trigger is no longer than the command |
| Text.ContainsAt | lab_10.py:139-149 | an occurrence of the trigger at any position makes Python's `trigger in command` true |
| Text.ContainsIndex | lab_10.py:139-149 | whenever `trigger in command` is true, there is a position where the trigger occurs |
| Text.ContainsInfix | lab_10.py:139-149 | a command built around a trigger contains it |
| Text.Split | lab_10.py:103 | `split` always yields at least one piece |
| Text.SplitCount | lab_10.py:103 | `split("/")` yields one more piece than there are slashes, so `[-2]` exists exactly when the URL has a slash |
| Text.SplitPieces | lab_10.py:103 | no piece holds the separator |
| Text.SplitJoin | lab_10.py:103 | joining the pieces with the separator gives back the original string (round trip) |
| Text.SplitAround | lab_10.py:103 | splitting `x + "/" + y` gives the pieces of `x` followed by those of `y` |
| Text.SplitWhole | lab_10.py:103 | a string without the separator splits into itself alone |
| Text.IsSpace | lab_10.py:69 | the characters `strip()` removes (Python's `isspace` set) include no digit and no Latin letter |
| Text.TrimStart | lab_10.py:69 | `lstrip` leaves a suffix of the string |
| Text.TrimEnd | lab_10.py:69 | `rstrip` leaves a prefix of the string |
| Text.TrimStartSpaces | lab_10.py:69 | `lstrip` removes only whitespace, and all of the leading whitespace |
| Text.TrimEndSpaces | lab_10.py:69 | `rstrip` removes only whitespace, and all of the trailing whitespace |
| Text.Strip | lab_10.py:69 | `strip()` never makes the text longer |
| Text.StripRun | lab_10.py:69 | `strip()` keeps one contiguous run that neither starts nor ends with whitespace, and everything outside the run is whitespace |
| Text.StripEnds | lab_10.py:69 | a non-empty `strip()` result neither starts nor ends with whitespace |
| Text.StripEmpty | lab_10.py:69-70 | `strip()` is empty exactly when the text is all whitespace |
| Text.StripInfix | lab_10.py:69 | the stripped text occurs in the original |
| Text.StripUntrimmed | lab_10.py:69 | `strip()` leaves alone a text that has no outer whitespace |
| Text.LowerChar | lab_10.py:69 | a lowered character is never a capital A–Z or U+0400–U+042F, and only those capitals are changed |
| Text.Lower | lab_10.py:69 | `lower()` keeps the length |
| Text.LowerAt | lab_10.py:69 | each character of `lower()` is the lowered character at the same position |
| Text.LowerCharSpace | lab_10.py:69 | lowering does not turn a character into whitespace or whitespace into something else |
| Text.LowerCharIdempotent | lab_10.py:69 | lowering twice is lowering once |
| Listening.Normalize | lab_10.py:69 | `strip().lower()` never makes the text longer |
| Listening.NormalizeEmpty | lab_10.py:69-70 | `strip().lower()` is empty exactly for all-whitespace text, so only such results are skipped |
| Listening.NormalizeIdempotent | lab_10.py:69-71 | a command `listen` returns is already stripped and lowercase |
| Listening.Heard | lab_10.py:67-69 | a read with no final result, or a final result without "text", yields the empty string |
| Listening.Listen | lab_10.py:62-71 | returns the first non-empty `strip().lower()` of the recogniser results and never an empty string; every result before it normalises to empty; if there is none, all results were empty |
| Commands.Breed | lab_10.py:103 | `url.split("/")[-2]` exists exactly when the URL contains `/`, and holds no `/` |
| Commands.BreedOfPath | lab_10.py:103 | for any `prefix/breed/file` (or `breed/file`) with slash-free breed and file, the derived breed is `breed` |
| Commands.BreedOfDogApiLocator | lab_10.py:103 | the one locator `https://images.dog.ceo/breeds/hound-afghan/n02088094_1003.jpg` gives the breed `hound-afghan`; BreedOfPath covers every `prefix/breed/file` |
| Commands.SaveFileName | lab_10.py:104 | the file name is `dog_`, then the breed, then `.jpg` |
| Commands.Classify | lab_10.py:137-151 | the chosen intent's trigger occurs in the command; no trigger tested earlier does; Unknown exactly when no trigger occurs |
| Commands.ClassifyIsFirstMatch | lab_10.py:139-151 | the if/elif chain equals the first-match rule over the ordered trigger table |
| Commands.ShowBeatsLaterTriggers | lab_10.py:142-149 | a command with "показать" and no "следующая" shows the picture, whatever later triggers it also contains |
| Commands.UnknownCommands | lab_10.py:150-151 | the empty command and an unrelated word are not understood |
| Commands.MessageOf | lab_10.py:76-79 | a "message" is read exactly when the API answers 200 with a parsed body that has one, and it is that body's "message" |
| Commands.FetchStep | lab_10.py:73-89 | returns True exactly on a 200 answer with a "message" and an image; the URL becomes "message" whenever one was read, even if the image then fails; the data changes only on success; non-200 speaks "Не удалось получить изображение собаки.", an exception speaks "Ошибка при загрузке изображения.", success speaks nothing; the calls are the API request and then the image request |
| Commands.HasUrl | lab_10.py:93 | the truth test on `current_image_url` holds exactly when the URL is non-empty |
| Commands.ShowStep | lab_10.py:91-97 | with a URL, opens it in the browser and says so; without one, says to load with "следующая" and calls nothing; the session never changes |
| Commands.HasData | lab_10.py:101 | the truth test on `current_image_data` holds exactly when there is data and it is non-empty |
| Commands.SaveStep | lab_10.py:99-112 | without data (None or empty), says "Нет изображения для сохранения." and calls nothing; with data, writes it to `dog_<breed>.jpg` and reports the name, or reports failure when the write or the breed fails; the session never changes |
| Commands.BreedStep | lab_10.py:114-120 | without a URL, says "Сначала загрузите изображение."; with one, speaks the breed, or raises IndexError when the URL has no `/`; no call, no state change |
| Commands.InfoPhrase | lab_10.py:126-132 | the generic error phrase is spoken exactly when the lookup fails other than by PageError; the summary and the not-found phrase both name the breed; the summary phrase contains Wikipedia's text |
| Commands.BreedInfoStep | lab_10.py:122-135 | without a URL, says "load first" and calls nothing; with one, asks Wikipedia for two sentences on the breed and speaks the summary, the not-found message naming the breed, or the generic error; IndexError escapes when the URL has no `/` |
| Commands.CommandStep | lab_10.py:137-151 | only a fetch command changes the session; a fetch command has the session and calls of FetchStep and adds "Загружено новое изображение собаки." after a successful fetch; "показать", "сохранить", "назови породу" and "расскажи о породе" commands have exactly the effect of ShowStep, SaveStep, BreedStep and BreedInfoStep; an unknown command says "Я не понял команду. Попробуйте ещё раз." and calls nothing; IndexError escapes exactly for a breed or breed-info command on a non-empty URL without `/`, and nothing else escapes |
| Commands.LoadedOnlyAfterSuccessfulFetch | lab_10.py:139-141 | the success phrase is spoken by a command exactly when it is a fetch command whose fetch returned True |
| Commands.BreedAgreesAcrossCommands | lab_10.py:103-125 | save, get_breed and get_breed_info use the same breed for the same URL: file name, spoken breed and Wikipedia term agree |
| Commands.GuardsOnEmptySession | lab_10.py:91-151 | on a fresh session, makes no call and changes nothing for every command but fetch; "показать" says to load with "следующая", "сохранить" says there is nothing to save, both breed commands say to load an image first, and an unknown command says it was not understood |
| Commands.RunFetchesSnoc | lab_10.py:73-89 | running one more fetch after a history is one more fetch step |
| Commands.RunFetchesLatest | lab_10.py:73-89 | after any sequence of fetches, the URL is the "message" of the latest fetch that read one, and the data is the content of the latest fully successful fetch; the two may come from different fetches |
| Commands.FetchIsNotAtomic | lab_10.py:79-89 | a fetch whose image request raises leaves a new URL beside the old data and returns False |
| Commands.BreedInfoNotFound | lab_10.py:124-130 | for `.../breeds/poodle/n02.jpg` and a missing Wikipedia page, the assistant says it found nothing about "poodle" |
| Assistant.DogAssistant.constructor | lab_10.py:35-36 | a new assistant has an empty URL, no data, and nothing spoken or called |
| Assistant.DogAssistant.Speak | lab_10.py:56-60 | appends the phrase to the spoken trace |
| Assistant.DogAssistant.FetchRandomDog | lab_10.py:73-89 | updates the fields step by step, with the effect of FetchStep on the old session and the same return value |
| Assistant.DogAssistant.ShowImage | lab_10.py:91-97 | has the effect of ShowStep; the session fields are outside what it may modify |
| Assistant.DogAssistant.SaveImage | lab_10.py:99-112 | has the effect of SaveStep; it does not modify the session fields |
| Assistant.DogAssistant.GetBreed | lab_10.py:114-120 | has the effect of BreedStep and reports whether IndexError escaped |
| Assistant.DogAssistant.GetBreedInfo | lab_10.py:122-135 | has the effect of BreedInfoStep and reports whether IndexError escaped |
| Assistant.DogAssistant.HandleCommand | lab_10.py:137-151 | dispatches by the same if/elif chain, with the effect of CommandStep on fields and traces |

## Left out

- Downloading and unzipping the Vosk model (lines 38-54) is left out. It is network and filesystem work ending in `exit`. The "model not found" phrase that `__init__` speaks before it (line 21) is left out with it.
- Opening the PyAudio stream, reading it and closing it (lines 26-33, 66, 163-165) are left out. They are device I/O.
- KaldiRecognizer decoding and the JSON parsing of its result (lines 67-68) are left out. Each read becomes a `Chunk`: no final result yet, or a final result with or without "text".
- pyttsx3 speech synthesis and the console `print`s are left out. `speak` only appends to the spoken trace.
- `requests.get`, `webbrowser.open`, the file write and `wikipedia.summary` are not performed. Each appears as an entry in the calls trace, and its answer is an input.
- The `run` loop with its greeting, its `KeyboardInterrupt` handling and its farewell (lines 153-166) is left out. It is interactive cancellation around `listen` and `handle_command`, which are both modelled.
- A JSON "message" that is not a string is not modelled. "message" is assumed to be a string or absent.
- Listening.Listen: the source blocks until a non-empty result arrives. The model reads a finite sequence of reports and returns None when it runs out.
- Text.Lower: only A–Z (U+0041–U+005A) and the Cyrillic capitals U+0400–U+042F are lowered. Python's full Unicode case mapping is not modelled: Latin-1 capitals U+00C0–U+00DE, Cyrillic capitals from U+0460 on, Greek and all other scripts stay unchanged here, and U+0130, which Python lowers to two code points, stays one character. Recogniser output is Russian text.
- The order between spoken phrases and external calls is not kept: they are two separate traces, each in its own order. For example, the model does not record that `show_image` opens the browser before it speaks.

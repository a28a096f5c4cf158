/**
 The page's session object (`ElevenLabsTTS`): the accepted key, the voice
 catalog, the voice picker, the selected voice and the last audio. Each
 handler that talks to the service receives the service's reply as a
 parameter and returns the request it sent (None when it sent none).
 */
module Session {
  import opened Strings
  import opened Replies
  import opened Voices
  import opened Controls

  /** An entry of the voice picker: the placeholder at the top, or the option
      of one voice with its text and whether it is displayed. */
  datatype SelectOption = Placeholder | VoiceOption(voice: Voice, text: string, visible: bool)
  {
    /** The option's `value` attribute. */
    function Value(): string {
      if Placeholder? then "" else voice.voiceId
    }
  }

  /** The option `populateVoices` builds for voice `v`, as `filterVoices`
      leaves it under the given filter controls. */
  function RenderedOption(v: Voice, filter: string, search: string): SelectOption {
    VoiceOption(v, OptionText(v), Visible(v, filter, search))
  }

  /** The picker for a catalog: the placeholder, then one option per catalog
      entry, in catalog order, displayed as the filters decide. */
  function Picker(catalog: seq<Voice>, filter: string, search: string): seq<SelectOption> {
    [Placeholder] + seq(|catalog|, i requires 0 <= i < |catalog| => RenderedOption(catalog[i], filter, search))
  }

  /** The picker holds the placeholder (value "") and then exactly one option
      per catalog entry, in catalog order, whose value is that voice's id. */
  lemma PickerOnlyVoiceOptions(catalog: seq<Voice>, filter: string, search: string)
    ensures var options := Picker(catalog, filter, search);
      && |options| == |catalog| + 1 && options[0] == Placeholder && options[0].Value() == ""
      && forall i :: 1 <= i < |options| ==>
           options[i].VoiceOption? && options[i].voice == catalog[i - 1] && options[i].Value() == catalog[i - 1].voiceId
  {
  }

  /** The catalog holds exactly the fetched voices and the custom ones, each
      as often as it occurs there. */
  ghost predicate Partitions(catalog: seq<Voice>, fetched: seq<Voice>, custom: seq<Voice>) {
    multiset(catalog) == multiset(fetched) + multiset(custom)
  }

  datatype KeyError =
    | EmptyKey     // 'Vui lòng nhập API key'
    | InvalidKey   // 'Lỗi xác thực API key: ...'

  datatype KeyOutcome = KeyAccepted(voiceCount: nat) | KeyRejected(reason: KeyError)

  datatype AddError =
    | EmptyVoiceId     // 'Vui lòng nhập Voice ID'
    | NoApiKey         // 'Vui lòng xác thực API key trước'
    | InvalidVoiceId   // 'Lỗi thêm giọng tùy chỉnh: ...'
    | AlreadyListed    // 'Giọng đọc này đã có trong danh sách'

  datatype AddOutcome = VoiceAdded(voice: Voice) | AddRejected(reason: AddError)

  datatype GenerateOutcome = SpeechReady | GenerateFailed(reason: GenerateError)

  class ElevenLabsTTS {
    var apiKey: string
    var voices: seq<Voice>
    var customVoices: seq<Voice>
    var allVoices: seq<Voice>
    var selectedVoice: Option<Voice>
    var audioBlob: Option<seq<bv8>>

    // The voice picker and the values of its two filter controls.
    var options: seq<SelectOption>
    var languageFilter: string
    var voiceSearch: string

    /** The picker lists the placeholder and then one option per catalog
        entry, in catalog order, each displayed as the filters decide; the
        catalog is sorted; and once a key has been accepted the catalog holds
        exactly the fetched voices and the custom ones. Before any key has
        been accepted the catalog is empty and no voice is selected, so a
        selected voice implies a held key. */
    ghost predicate Valid()
      reads this
    {
      && options == Picker(allVoices, languageFilter, voiceSearch)
      && Sorted(allVoices)
      && (apiKey != "" ==> Partitions(allVoices, voices, customVoices))
      && (apiKey == "" ==> allVoices == [] && selectedVoice == None)
    }

    /** A fresh page: no key, an empty catalog, and the custom voices saved by
        an earlier visit (read from local storage by `loadSettings`). */
    constructor (savedCustomVoices: seq<Voice>, filter: string, search: string)
      ensures Valid()
      ensures apiKey == "" && voices == [] && allVoices == [] && customVoices == savedCustomVoices
      ensures selectedVoice == None && audioBlob == None
      ensures languageFilter == filter && voiceSearch == search
    {
      apiKey := "";
      voices := [];
      customVoices := savedCustomVoices;
      allVoices := [];
      selectedVoice := None;
      audioBlob := None;
      options := [Placeholder];
      languageFilter := filter;
      voiceSearch := search;
    }

    /** `filterVoices`: show or hide every option after the first; nothing is
        added, removed or moved. */
    method FilterVoices()
      requires options != []
      requires forall i :: 1 <= i < |options| ==> options[i].VoiceOption?
      modifies this`options
      ensures |options| == |old(options)| && options[0] == old(options[0])
      ensures forall i :: 1 <= i < |options| ==>
        options[i] == old(options[i]).(visible := Visible(old(options[i]).voice, languageFilter, voiceSearch))
    {
      var i := 1;
      while i < |options|
        invariant 1 <= i <= |options| && |options| == |old(options)| && options[0] == old(options[0])
        invariant forall k :: 1 <= k < i ==>
          options[k] == old(options[k]).(visible := Visible(old(options[k]).voice, languageFilter, voiceSearch))
        invariant forall k :: i <= k < |options| ==> options[k] == old(options[k])
      {
        var shown := Visible(options[i].voice, languageFilter, voiceSearch);
        options := options[i := options[i].(visible := shown)];
        i := i + 1;
      }
    }

    /** The `forEach` loop of `populateVoices`: after the placeholder, append
        one displayed option per catalog entry, in catalog order. */
    method RenderOptions()
      modifies this`options
      ensures |options| == |allVoices| + 1 && options[0] == Placeholder
      ensures forall i :: 0 <= i < |allVoices| ==> options[i + 1] == VoiceOption(allVoices[i], OptionText(allVoices[i]), true)
      ensures forall i :: 1 <= i < |options| ==> options[i].VoiceOption?
    {
      options := [Placeholder];
      var i := 0;
      while i < |allVoices|
        invariant 0 <= i <= |allVoices| && |options| == i + 1 && options[0] == Placeholder
        invariant forall k :: 0 <= k < i ==> options[k + 1] == VoiceOption(allVoices[k], OptionText(allVoices[k]), true)
        invariant forall k :: 1 <= k < |options| ==> options[k].VoiceOption?
      {
        options := options + [VoiceOption(allVoices[i], OptionText(allVoices[i]), true)];
        i := i + 1;
      }
    }

    /** `populateVoices`: sort the catalog in place, rebuild the picker with
        one option per voice, then apply the filters. */
    method PopulateVoices()
      modifies this`allVoices, this`options
      ensures allVoices == SortVoices(old(allVoices))
      ensures multiset(allVoices) == multiset(old(allVoices))
      ensures options == Picker(allVoices, languageFilter, voiceSearch)
    {
      allVoices := SortVoices(allVoices);
      RebuildPicker();
    }

    /** The rest of `populateVoices`: one option per catalog entry, then the
        filters applied to them. */
    method RebuildPicker()
      modifies this`options
      ensures options == Picker(allVoices, languageFilter, voiceSearch)
    {
      RenderOptions();
      FilterVoices();
      var picker := Picker(allVoices, languageFilter, voiceSearch);
      forall i | 0 <= i < |options|
        ensures options[i] == picker[i]
      {
        if i > 0 {
          var k := i - 1;
          assert picker[k + 1] == RenderedOption(allVoices[k], languageFilter, voiceSearch);
        }
      }
    }

    /** The language selector's `change` event. */
    method ChangeLanguageFilter(filter: string)
      requires Valid()
      modifies this`languageFilter, this`options
      ensures Valid() && languageFilter == filter
      ensures |options| == |old(options)|
      ensures forall i :: 0 <= i < |options| ==> options[i].Value() == old(options[i]).Value()
    {
      PickerOnlyVoiceOptions(allVoices, languageFilter, voiceSearch);
      languageFilter := filter;
      FilterVoices();
    }

    /** The search box's `input` event (`searchVoices`). */
    method SearchVoices(search: string)
      requires Valid()
      modifies this`voiceSearch, this`options
      ensures Valid() && voiceSearch == search
      ensures |options| == |old(options)|
      ensures forall i :: 0 <= i < |options| ==> options[i].Value() == old(options[i]).Value()
    {
      PickerOnlyVoiceOptions(allVoices, languageFilter, voiceSearch);
      voiceSearch := search;
      FilterVoices();
    }

    /** `validateApiKey`: fetch the catalog with the trimmed key; on success
        keep the key and list the fetched voices followed by the custom ones. */
    method ValidateApiKey(keyInput: string, reply: Reply<seq<Voice>>) returns (request: Option<Request>, outcome: KeyOutcome)
      requires Valid()
      modifies this`apiKey, this`voices, this`allVoices, this`options
      ensures Valid()
      ensures request == if Blank(keyInput) then None else Some(ListVoices(Trim(keyInput)))
      ensures outcome == KeyRejected(EmptyKey) <==> Blank(keyInput)
      ensures outcome == KeyRejected(InvalidKey) <==> !Blank(keyInput) && reply.Failed?
      ensures outcome.KeyAccepted? <==> !Blank(keyInput) && reply.Ok?
      ensures outcome.KeyRejected? ==>
        && apiKey == old(apiKey) && voices == old(voices) && allVoices == old(allVoices)
        && options == old(options)
      ensures outcome.KeyAccepted? ==>
        && reply.Ok? && apiKey == Trim(keyInput) && apiKey != "" && voices == reply.payload
        && allVoices == SortVoices(reply.payload + old(customVoices))
        && outcome.voiceCount == |allVoices|
    {
      var key := Trim(keyInput);
      if key == "" {
        return None, KeyRejected(EmptyKey);
      }
      request := Some(ListVoices(key));
      match reply
      case Failed =>
        outcome := KeyRejected(InvalidKey);
      case Ok(fetched) =>
        apiKey := key;
        voices := fetched;
        allVoices := voices + customVoices;
        assert Partitions(allVoices, voices, customVoices);
        PopulateVoices();
        outcome := KeyAccepted(|allVoices|);
    }

    /** `addCustomVoice`: look the trimmed id up with the accepted key and,
        unless the catalog already lists that id, add the voice as a custom
        one. */
    method AddCustomVoice(idInput: string, reply: Reply<Voice>) returns (request: Option<Request>, outcome: AddOutcome)
      requires Valid()
      modifies this`customVoices, this`allVoices, this`options
      ensures Valid()
      ensures request == if Blank(idInput) || apiKey == "" then None else Some(GetVoice(apiKey, Trim(idInput)))
      ensures outcome == AddRejected(EmptyVoiceId) <==> Blank(idInput)
      ensures outcome == AddRejected(NoApiKey) <==> !Blank(idInput) && apiKey == ""
      ensures outcome == AddRejected(InvalidVoiceId) <==> !Blank(idInput) && apiKey != "" && reply.Failed?
      ensures outcome == AddRejected(AlreadyListed) <==>
        !Blank(idInput) && apiKey != "" && reply.Ok? && HasVoiceId(old(allVoices), Trim(idInput))
      ensures outcome.AddRejected? ==>
        && customVoices == old(customVoices) && allVoices == old(allVoices) && options == old(options)
      ensures outcome.VoiceAdded? ==>
        && reply.Ok? && outcome.voice == AsCustomVoice(reply.payload)
        && customVoices == old(customVoices) + [outcome.voice]
        && allVoices == SortVoices(old(allVoices) + [outcome.voice])
        && multiset(allVoices) == multiset(old(allVoices)) + multiset{outcome.voice}
    {
      var id := Trim(idInput);
      if id == "" {
        return None, AddRejected(EmptyVoiceId);
      }
      if apiKey == "" {
        return None, AddRejected(NoApiKey);
      }
      request := Some(GetVoice(apiKey, id));
      match reply
      case Failed =>
        outcome := AddRejected(InvalidVoiceId);
      case Ok(fetched) =>
        if FindVoice(allVoices, id).Some? {
          outcome := AddRejected(AlreadyListed);
          return;
        }
        var custom := AsCustomVoice(fetched);
        ListCustomVoice(custom);
        outcome := VoiceAdded(custom);
    }

    /** The end of `addCustomVoice` once the lookup succeeded: remember the
        voice among the custom ones, add it to the catalog and rebuild the
        picker. */
    method ListCustomVoice(custom: Voice)
      requires Valid() && apiKey != ""
      modifies this`customVoices, this`allVoices, this`options
      ensures Valid()
      ensures customVoices == old(customVoices) + [custom]
      ensures allVoices == SortVoices(old(allVoices) + [custom])
      ensures multiset(allVoices) == multiset(old(allVoices)) + multiset{custom}
    {
      customVoices := customVoices + [custom];
      allVoices := allVoices + [custom];
      assert apiKey != "" ==> Partitions(allVoices, voices, customVoices);
      PopulateVoices();
    }

    /** `selectVoice`: choosing the option at `index` selects its voice; the
        placeholder (or no option) leaves the selection as it was. */
    method SelectVoice(index: int)
      requires Valid()
      modifies this`selectedVoice
      ensures Valid()
      ensures 1 <= index <= |allVoices| ==> selectedVoice == Some(allVoices[index - 1])
      ensures !(1 <= index <= |allVoices|) ==> selectedVoice == old(selectedVoice)
    {
      if 0 <= index < |options| && options[index].VoiceOption? {
        selectedVoice := Some(options[index].voice);
      }
    }

    /** `generateSpeech`: check the text, then the selection, then send the
        request; only audio that arrives replaces the previous audio. */
    method GenerateSpeech(textInput: string, sliders: Sliders, reply: SpeechReply) returns (request: Option<Request>, outcome: GenerateOutcome)
      requires Valid()
      modifies this`audioBlob
      ensures Valid()
      ensures var guard := SpeechRequest(apiKey, selectedVoice, textInput, sliders);
        && (guard.Failure? ==> request == None && outcome == GenerateFailed(guard.error))
        && (guard.Success? ==> request == Some(guard.value))
        && (guard.Success? && reply.Audio? ==> outcome == SpeechReady && audioBlob == Some(reply.data))
        && (guard.Success? && !reply.Audio? ==> outcome == GenerateFailed(SpeechRejected(FailureDetail(reply))))
      ensures outcome.GenerateFailed? ==> audioBlob == old(audioBlob)
      ensures request.Some? ==> request.value.apiKey != ""
    {
      match SpeechRequest(apiKey, selectedVoice, textInput, sliders)
      case Failure(error) =>
        return None, GenerateFailed(error);
      case Success(call) =>
        request := Some(call);
        if reply.Audio? {
          audioBlob := Some(reply.data);
          outcome := SpeechReady;
        } else {
          outcome := GenerateFailed(SpeechRejected(FailureDetail(reply)));
        }
    }
  }
}

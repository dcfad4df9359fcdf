/** The location search box: when it asks for suggestions, how a place-details reply becomes a
    suggestion, how a suggestion is labelled, and what selecting one does. */
module LocationPicker {
  import opened Wrappers
  import opened Text

  // ---------------------------------------------------------------- labels

  /** `description.split(',')`. */
  function Split(s: string): (parts: seq<string>)
    ensures |parts| >= 1
    ensures forall i :: 0 <= i < |parts| ==> ',' !in parts[i]
  {
    if s == [] then [""]
    else
      var rest := Split(s[1..]);
      if s[0] == ',' then [""] + rest else [[s[0]] + rest[0]] + rest[1..]
  }

  /** `parts.join(',')`. */
  function Join(parts: seq<string>): string
    requires |parts| >= 1
  {
    if |parts| == 1 then parts[0] else parts[0] + "," + Join(parts[1..])
  }

  /** Joining the pieces of a split gives back the string. */
  lemma {:induction false} JoinSplit(s: string)
    ensures Join(Split(s)) == s
  {
    if s != [] {
      var rest := Split(s[1..]);
      JoinSplit(s[1..]);
      if s[0] == ',' {
        assert Split(s)[1..] == rest;
      } else if |rest| > 1 {
        assert Split(s)[1..] == rest[1..];
        assert Join(rest) == rest[0] + "," + Join(rest[1..]);
      }
    }
  }

  /** A split yields a single piece exactly when there is no comma. */
  lemma {:induction false} SplitSingle(s: string)
    ensures |Split(s)| == 1 <==> ',' !in s
  {
    if s != [] {
      SplitSingle(s[1..]);
      assert s == [s[0]] + s[1..];
    }
  }

  /** `split(',')[0]`. */
  function MainLabel(description: string): string {
    Split(description)[0]
  }

  /** `split(',').slice(1).join(',')`, empty when there is no comma. */
  function SecondaryLabel(description: string): string {
    var parts := Split(description);
    if |parts| == 1 then "" else Join(parts[1..])
  }

  /** The main label is the text before the first comma, the secondary label everything after
      it: the description is the main label alone when it has no comma, and main, comma,
      secondary otherwise. */
  lemma LabelsSplitAtFirstComma(description: string)
    ensures ',' !in MainLabel(description)
    ensures ',' !in description ==> description == MainLabel(description) && SecondaryLabel(description) == ""
    ensures ',' in description ==> description == MainLabel(description) + "," + SecondaryLabel(description)
  {
    JoinSplit(description);
    SplitSingle(description);
  }

  // ---------------------------------------------------------------- replies

  datatype Suggestion = Suggestion(placeId: string, description: string, latitude: real, longitude: real)

  datatype Prediction = Prediction(placeId: string, description: string)

  /** A place-details reply: the request failed, or it parsed with possibly missing coordinates. */
  datatype PlaceDetails = DetailsFailed | Details(lat: Option<real>, lng: Option<real>)

  /** `?.lat || 0`. */
  function CoordinateOrZero(c: Option<real>): real {
    if c.Some? then c.value else 0.0
  }

  /** The mapping over predictions: id and description are kept; the coordinates are the
      reply's, 0/0 where missing or when the details request failed. */
  function ToSuggestion(p: Prediction, d: PlaceDetails): (s: Suggestion)
    ensures s.placeId == p.placeId && s.description == p.description
    ensures d.DetailsFailed? ==> s.latitude == 0.0 && s.longitude == 0.0
    ensures d.Details? && d.lat.None? ==> s.latitude == 0.0
    ensures d.Details? && d.lng.None? ==> s.longitude == 0.0
    ensures d.Details? && d.lat.Some? ==> s.latitude == d.lat.value
    ensures d.Details? && d.lng.Some? ==> s.longitude == d.lng.value
  {
    match d
    case DetailsFailed => Suggestion(p.placeId, p.description, 0.0, 0.0)
    case Details(lat, lng) => Suggestion(p.placeId, p.description, CoordinateOrZero(lat), CoordinateOrZero(lng))
  }

  /** The autocomplete reply: the request failed, or it listed predictions (with one details
      reply each, in order). */
  datatype Autocomplete = AutocompleteFailed | Predictions(predictions: seq<Prediction>, details: seq<PlaceDetails>)

  predicate WellFormedReply(r: Autocomplete) {
    r.Predictions? ==> |r.predictions| == |r.details|
  }

  /** `searchText.trim()` non-empty and an API key configured. */
  predicate ShouldFetch(searchText: string, apiKey: string) {
    !IsBlank(searchText) && apiKey != ""
  }

  /** Where the selection goes. */
  datatype Selected = Selected(address: string, latitude: real, longitude: real)

  /** The picker's fields; the API key is configuration that never changes. */
  class Picker {
    const apiKey: string
    var input: string
    var suggestions: seq<Suggestion>
    var loading: bool
    var showSuggestions: bool

    constructor (value: string, apiKey: string)
      ensures this.apiKey == apiKey && input == value && suggestions == []
      ensures !loading && !showSuggestions
    {
      this.apiKey := apiKey;
      input := value;
      suggestions := [];
      loading := false;
      showSuggestions := false;
    }

    /** `handleInputChange`: the text is taken and the list shown; a blank text or a missing key
        empties the suggestions without a request, otherwise a request starts (`fetching`). */
    method HandleInputChange(text: string) returns (fetching: bool)
      modifies this
      ensures input == text && showSuggestions
      ensures fetching <==> ShouldFetch(text, apiKey)
      ensures !fetching ==> suggestions == [] && loading == old(loading)
      ensures fetching ==> loading && suggestions == old(suggestions)
    {
      input := text;
      showSuggestions := true;
      if !ShouldFetch(text, apiKey) {
        suggestions := [];
        return false;
      }
      loading := true;
      fetching := true;
    }

    /** The request's outcome: predictions become suggestions and the list is shown; no
        predictions, or a failed request, empty the list. Loading ends either way. */
    method ApplyReply(reply: Autocomplete)
      requires WellFormedReply(reply)
      modifies this
      ensures !loading && input == old(input)
      ensures reply.Predictions? && |reply.predictions| > 0 ==>
                && |suggestions| == |reply.predictions|
                && (forall i :: 0 <= i < |suggestions| ==>
                      suggestions[i] == ToSuggestion(reply.predictions[i], reply.details[i]))
                && showSuggestions
      ensures !(reply.Predictions? && |reply.predictions| > 0) ==>
                suggestions == [] && showSuggestions == old(showSuggestions)
    {
      if reply.Predictions? && |reply.predictions| > 0 {
        suggestions := seq(|reply.predictions|, i requires 0 <= i < |reply.predictions| =>
                             ToSuggestion(reply.predictions[i], reply.details[i]));
        showSuggestions := true;
      } else {
        suggestions := [];
      }
      loading := false;
    }

    /** `handleSelectSuggestion`: the input becomes the description, the list is hidden and
        cleared, and the description and coordinates are passed on unchanged. */
    method HandleSelectSuggestion(s: Suggestion) returns (selected: Selected)
      modifies this
      ensures input == s.description && !showSuggestions && suggestions == []
      ensures loading == old(loading)
      ensures selected == Selected(s.description, s.latitude, s.longitude)
    {
      input := s.description;
      showSuggestions := false;
      suggestions := [];
      selected := Selected(s.description, s.latitude, s.longitude);
    }
  }
}

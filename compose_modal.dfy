/** The composer (ComposeModal.tsx): a two-step dialog, text then theme, with a
    150-character budget, a guarded post, and a reset whenever it closes. */
module ComposeModal {
  import opened Wrappers
  import opened Records
  import opened Text
  import ThemeSelector

  const CharacterLimit: nat := 150

  datatype Step = TextStep | ThemeStep

  /** The row a post asks the store to insert (`{ text, author_id, theme }`). */
  datatype NewLine = NewLine(text: string, authorId: Id, theme: string)

  /** What the textarea holds after an edit: `maxLength` keeps only the first 150
      characters of what was typed or pasted. */
  function Capped(input: string): (r: string)
    ensures |r| <= CharacterLimit
    ensures |r| == if |input| <= CharacterLimit then |input| else CharacterLimit
    ensures |input| <= CharacterLimit ==> r == input
    ensures r == input[..|r|]
  {
    if |input| <= CharacterLimit then input else input[..CharacterLimit]
  }

  /** The post a click on 'Post Line' sends: none while one is in flight (the button
      is disabled), none without a viewer or with a blank text; otherwise the trimmed
      text, by the viewer, in the selected theme. */
  function PostRequest(viewer: Option<Id>, text: string, theme: string, inFlight: bool): (r: Option<NewLine>)
    ensures r.Some? <==> !inFlight && viewer.Some? && !AllSpace(text)
    ensures r.Some? ==> r.value.authorId == viewer.value && r.value.theme == theme
                        && r.value.text != [] && r.value.text == Trim(text)
                        && !IsSpace(r.value.text[0]) && !IsSpace(r.value.text[|r.value.text| - 1])
                        && |r.value.text| <= |text|
  {
    TrimEmptyIff(text);
    if inFlight || viewer.None? || Trim(text) == [] then None
    else Some(NewLine(Trim(text), viewer.value, theme))
  }

  class Composer {
    var open: bool
    var step: Step
    var text: string
    var selectedTheme: string
    var isPosting: bool

    /** The textarea never holds more than the budget. */
    ghost predicate Valid()
      reads this
    {
      |text| <= CharacterLimit
    }

    /** The state the dialog is reset to. */
    predicate IsReset()
      reads this
    {
      step == TextStep && text == "" && selectedTheme == ThemeSelector.DefaultTheme
    }

    constructor ()
      ensures Valid() && IsReset() && !isPosting && !open
    {
      open := false;
      step := TextStep;
      text := "";
      selectedTheme := ThemeSelector.DefaultTheme;
      isPosting := false;
    }

    /** `remainingChars`: what is left of the budget, never negative because the
        textarea caps its input. */
    function RemainingChars(): (r: int)
      reads this
      requires Valid()
      ensures 0 <= r <= CharacterLimit
      ensures r + |text| == CharacterLimit
    {
      CharacterLimit - |text|
    }

    /** The parent opens the dialog. */
    method Show()
      modifies this`open
      ensures open
    {
      open := true;
    }

    /** The textarea's onChange; the textarea exists only on the text step. */
    method Type(input: string)
      requires Valid()
      modifies this`text
      ensures Valid()
      ensures text == if step == TextStep then Capped(input) else old(text)
    {
      if step == TextStep {
        text := Capped(input);
      }
    }

    /** handleNext: without a viewer nothing moves (a sign-in notice is shown);
        with one, the theme step is reached exactly when the text is not blank. */
    method Next(viewer: Option<Id>) returns (authNotice: bool)
      modifies this`step
      ensures authNotice <==> viewer.None?
      ensures step == if viewer.Some? && Trim(text) != [] then ThemeStep else old(step)
    {
      if viewer.None? {
        return true;
      }
      authNotice := false;
      if Trim(text) != [] {
        step := ThemeStep;
      }
    }

    /** The back arrow of the theme step: back to the text, which is kept, as is the
        chosen theme. */
    method Back()
      modifies this`step
      ensures step == TextStep
    {
      if step == ThemeStep {
        step := TextStep;
      }
    }

    /** A click on a theme tile, through the premium gate. */
    method ChooseTheme(name: string, profile: Option<Profile>)
      modifies this`selectedTheme
      ensures selectedTheme == ThemeSelector.Select(name, profile, old(selectedTheme))
    {
      selectedTheme := ThemeSelector.Select(name, profile, selectedTheme);
    }

    /** handlePost up to the await: a no-op unless a post is sent, which raises the
        in-flight flag. */
    method BeginPost(viewer: Option<Id>) returns (request: Option<NewLine>)
      modifies this`isPosting
      ensures request == PostRequest(viewer, text, selectedTheme, old(isPosting))
      ensures isPosting == (old(isPosting) || request.Some?)
    {
      request := PostRequest(viewer, text, selectedTheme, isPosting);
      if request.Some? {
        isPosting := true;
      }
    }

    /** handlePost from the await on: a successful insert resets the form and closes
        the dialog; a failed one changes nothing but the in-flight flag. */
    method PostSettled(succeeded: bool)
      requires Valid() && isPosting
      modifies this
      ensures Valid() && !isPosting
      ensures succeeded ==> IsReset() && !open
      ensures !succeeded ==> step == old(step) && text == old(text)
                             && selectedTheme == old(selectedTheme) && open == old(open)
    {
      if succeeded {
        text := "";
        selectedTheme := ThemeSelector.DefaultTheme;
        step := TextStep;
        open := false;
      }
      isPosting := false;
    }

    /** handleClose, from any state. */
    method Close()
      requires Valid()
      modifies this
      ensures Valid() && IsReset() && !open && isPosting == old(isPosting)
    {
      text := "";
      selectedTheme := ThemeSelector.DefaultTheme;
      step := TextStep;
      open := false;
    }
  }
}

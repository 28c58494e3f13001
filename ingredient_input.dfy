/** The scan card (src/components/nutriscan/IngredientInput.tsx): a text tab and
    an image tab, and the submit that hands the typed text or the chosen
    image to `onAnalyze`. */
module IngredientInput {
  import opened Types
  import opened Strings

  const TextTab := "text"
  const ImageTab := "image"

  /** The arguments of an `onAnalyze` call. */
  datatype AnalyzeCall = AnalyzeCall(input: string, isImage: bool, imageBase64: Option<string>)

  /** A selected image JavaScript would treat as true: present and not empty. */
  predicate HasImage(selectedImage: Option<string>) {
    selectedImage.Some? && selectedImage.value != ""
  }

  /** What `handleSubmit` passes to `onAnalyze`, if anything. It does not look
      at `isLoading`. */
  function SubmitCall(activeTab: string, textInput: string, selectedImage: Option<string>): (c: Option<AnalyzeCall>)
    ensures activeTab == TextTab && !IsBlank(textInput) ==> c == Some(AnalyzeCall(textInput, false, None))
    ensures activeTab == ImageTab && HasImage(selectedImage) ==> c == Some(AnalyzeCall("", true, selectedImage))
    ensures c.Some? <==> (activeTab == TextTab && !IsBlank(textInput)) || (activeTab == ImageTab && HasImage(selectedImage))
  {
    if activeTab == TextTab && Trim(textInput) != "" then Some(AnalyzeCall(textInput, false, None))
    else if activeTab == ImageTab && HasImage(selectedImage) then Some(AnalyzeCall("", true, selectedImage))
    else None
  }

  /** `isSubmitDisabled` */
  predicate IsSubmitDisabled(isLoading: bool, activeTab: string, textInput: string, selectedImage: Option<string>) {
    isLoading
    || (activeTab == TextTab && Trim(textInput) == "")
    || (activeTab == ImageTab && !HasImage(selectedImage))
  }

  /** On either tab, when not loading, the button is disabled exactly when a
      submit would do nothing. */
  lemma DisabledIffNoCall(activeTab: string, textInput: string, selectedImage: Option<string>)
    requires activeTab == TextTab || activeTab == ImageTab
    ensures IsSubmitDisabled(false, activeTab, textInput, selectedImage)
        <==> SubmitCall(activeTab, textInput, selectedImage).None?
  {
  }

  /** A submit that calls `onAnalyze` passes the text as typed, untrimmed, or
      the image with an empty text. */
  lemma SubmittedTextUntrimmed(activeTab: string, textInput: string, selectedImage: Option<string>)
    requires SubmitCall(activeTab, textInput, selectedImage).Some?
    ensures var c := SubmitCall(activeTab, textInput, selectedImage).value;
      (!c.isImage ==> c.input == textInput && Trim(c.input) != "")
      && (c.isImage ==> c.input == "" && HasImage(c.imageBase64))
  {
  }

  class ScanCard {
    var textInput: string
    var selectedImage: Option<string>
    var activeTab: string

    constructor ()
      ensures textInput == "" && selectedImage == None && activeTab == TextTab
    {
      textInput := "";
      selectedImage := None;
      activeTab := TextTab;
    }

    method SetText(v: string)
      modifies this
      ensures textInput == v && selectedImage == old(selectedImage) && activeTab == old(activeTab)
    {
      textInput := v;
    }

    method SetTab(tab: string)
      modifies this
      ensures activeTab == tab && textInput == old(textInput) && selectedImage == old(selectedImage)
    {
      activeTab := tab;
    }

    /** The file reader's `onloadend`, with the data URL it read. */
    method ImageLoaded(dataUrl: string)
      modifies this
      ensures selectedImage == Some(dataUrl) && textInput == old(textInput) && activeTab == old(activeTab)
    {
      selectedImage := Some(dataUrl);
    }

    /** `clearImage` */
    method ClearImage()
      modifies this
      ensures selectedImage == None && textInput == old(textInput) && activeTab == old(activeTab)
    {
      selectedImage := None;
    }

    /** `handleSubmit` */
    method HandleSubmit() returns (call: Option<AnalyzeCall>)
      ensures call == SubmitCall(activeTab, textInput, selectedImage)
    {
      call := SubmitCall(activeTab, textInput, selectedImage);
    }
  }
}

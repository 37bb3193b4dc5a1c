/** The voice store: whether the microphone is listening and the transcript so far. */
module VoiceStore {

  class Voice {
    var isListening: bool
    var transcript: string

    constructor ()
      ensures !isListening && transcript == ""
    {
      isListening := false;
      transcript := "";
    }

    /**
     * `toggleListening()`: turning off also clears the transcript; turning on
     * keeps whatever transcript is there.
     */
    method ToggleListening()
      modifies this
      ensures isListening == !old(isListening)
      ensures transcript == if old(isListening) then "" else old(transcript)
    {
      if isListening {
        isListening, transcript := false, "";
      } else {
        isListening := true;
      }
    }

    /** `updateTranscript(text)`. */
    method UpdateTranscript(text: string)
      modifies this
      ensures transcript == text && isListening == old(isListening)
    {
      transcript := text;
    }

    /** `resetTranscript()`. */
    method ResetTranscript()
      modifies this
      ensures transcript == "" && isListening == old(isListening)
    {
      transcript := "";
    }
  }

  /** On, a transcript, then off again: the store is back to silent with nothing transcribed. */
  method ListenCycle(v: Voice, heard: string)
    requires !v.isListening
    modifies v
    ensures !v.isListening && v.transcript == ""
  {
    v.ToggleListening();
    v.UpdateTranscript(heard);
    v.ToggleListening();
  }
}

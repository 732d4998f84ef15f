/** `src/components/SummarizerForm.tsx`: the two textareas and the submit
    handler, which checks both texts after trimming and passes them on
    untrimmed. */
module SummarizerForm {
  import opened Strings

  const EmptyAlert: string := "لطفا متن هر دو خطبه را وارد کنید."

  /** The guard of `handleSubmit`: both texts are non-empty once trimmed,
      that is, neither consists of whitespace only. */
  function Accepts(khutbah1: string, khutbah2: string): (ok: bool)
    ensures ok <==> !IsBlank(khutbah1) && !IsBlank(khutbah2)
  {
    TrimEmptyIff(khutbah1);
    TrimEmptyIff(khutbah2);
    Trim(khutbah1) != "" && Trim(khutbah2) != ""
  }

  /** The form's state, the alerts it raised and every `onSubmit` call it made. */
  class Form {
    var khutbah1: string
    var khutbah2: string
    var alerts: seq<string>
    var submissions: seq<(string, string)>

    /** Both fields start empty. */
    constructor ()
      ensures khutbah1 == "" && khutbah2 == "" && alerts == [] && submissions == []
    {
      khutbah1, khutbah2, alerts, submissions := "", "", [], [];
    }

    /** The textareas' `onChange`. */
    method SetTexts(k1: string, k2: string)
      modifies this`khutbah1, this`khutbah2
      ensures khutbah1 == k1 && khutbah2 == k2
    {
      khutbah1, khutbah2 := k1, k2;
    }

    /** A click on the submit button. It is disabled exactly while
        `isLoading`, and then no submit event fires. Otherwise the event's
        default is always prevented; a text that is empty after trimming
        raises the alert and nothing is submitted, and else `onSubmit` is
        called once with both texts as typed. */
    method Submit(isLoading: bool) returns (prevented: bool)
      modifies this`alerts, this`submissions
      ensures prevented <==> !isLoading
      ensures isLoading ==> alerts == old(alerts) && submissions == old(submissions)
      ensures !isLoading && (IsBlank(khutbah1) || IsBlank(khutbah2)) ==>
        alerts == old(alerts) + [EmptyAlert] && submissions == old(submissions)
      ensures !isLoading && !IsBlank(khutbah1) && !IsBlank(khutbah2) ==>
        alerts == old(alerts) && submissions == old(submissions) + [(khutbah1, khutbah2)]
    {
      if isLoading {
        return false;
      }
      prevented := true;
      if !Accepts(khutbah1, khutbah2) {
        alerts := alerts + [EmptyAlert];
        return;
      }
      submissions := submissions + [(khutbah1, khutbah2)];
    }
  }
}

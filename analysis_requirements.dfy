/**
 * The requirements step of the wizard: checkboxes over the predefined
 * requirements, a text box that appends custom requirements, one-click
 * suggestions, and removal of a custom requirement by position.
 */
module AnalysisRequirements {
  import opened Strings
  import opened Seqs
  import opened Requirements

  /** The suggestions offered when the step is first shown. */
  const InitialSuggestions: seq<string> := [
    "Verificar si el agente siguió el guión establecido",
    "Analizar si se resolvió el problema del cliente",
    "Detectar si el agente ofreció productos adicionales",
    "Evaluar la claridad de la comunicación",
    "Identificar si se siguió el protocolo de despedida"
  ]

  function IsNot(req: string): string -> bool {
    (s: string) => s != req
  }

  /** `suggestions.filter(s => s !== req)`: every copy of `req` is gone, every other suggestion stays, in order. */
  function WithoutSuggestion(suggestions: seq<string>, req: string): (r: seq<string>)
    ensures |r| <= |suggestions|
    ensures req !in r
    ensures forall i | 0 <= i < |suggestions| :: suggestions[i] != req ==> suggestions[i] in r
    ensures forall i | 0 <= i < |r| :: r[i] in suggestions
  {
    Filter(suggestions, IsNot(req))
  }

  /** Removing a suggestion that is not offered leaves the list as it was. */
  lemma WithoutAbsentSuggestion(suggestions: seq<string>, req: string)
    requires req !in suggestions
    ensures WithoutSuggestion(suggestions, req) == suggestions
  {
    FilterKeepsAll(suggestions, IsNot(req));
  }

  /**
   * The component's state. `predefined` and `custom` are the lists the page
   * owns and passes down with their setters; `newRequirement` and
   * `suggested` are the component's own.
   */
  class RequirementsForm {
    var predefined: seq<Requirement>
    var custom: seq<string>
    var newRequirement: string
    var suggested: seq<string>

    constructor(predefined: seq<Requirement>, custom: seq<string>)
      ensures this.predefined == predefined && this.custom == custom
      ensures newRequirement == "" && suggested == InitialSuggestions
    {
      this.predefined := predefined;
      this.custom := custom;
      newRequirement := "";
      suggested := InitialSuggestions;
    }

    /** `togglePredefinedRequirement(id)`: flips the checkbox of the entries with this id; nothing else changes. */
    method TogglePredefined(id: string)
      modifies this
      ensures predefined == Toggled(old(predefined), id)
      ensures custom == old(custom) && newRequirement == old(newRequirement) && suggested == old(suggested)
    {
      predefined := Toggled(predefined, id);
    }

    /** The text box's `onChange`. */
    method SetNewRequirement(text: string)
      modifies this
      ensures newRequirement == text
      ensures predefined == old(predefined) && custom == old(custom) && suggested == old(suggested)
    {
      newRequirement := text;
    }

    /**
     * `addCustomRequirement()`: blank text is ignored; otherwise the text,
     * untrimmed, goes at the end of the custom list, even when it is
     * already there, and the text box is cleared.
     */
    method AddCustom()
      modifies this
      ensures IsBlank(old(newRequirement)) ==> custom == old(custom) && newRequirement == old(newRequirement)
      ensures !IsBlank(old(newRequirement)) ==> custom == old(custom) + [old(newRequirement)] && newRequirement == ""
      ensures predefined == old(predefined) && suggested == old(suggested)
    {
      if IsBlank(newRequirement) {
        return;
      }
      custom := custom + [newRequirement];
      newRequirement := "";
    }

    /** `handleKeyDown`: Ctrl+Enter adds the text, every other key does nothing. */
    method KeyDown(key: string, ctrlKey: bool)
      modifies this
      ensures !(key == "Enter" && ctrlKey) ==>
        custom == old(custom) && newRequirement == old(newRequirement)
      ensures key == "Enter" && ctrlKey && IsBlank(old(newRequirement)) ==>
        custom == old(custom) && newRequirement == old(newRequirement)
      ensures key == "Enter" && ctrlKey && !IsBlank(old(newRequirement)) ==>
        custom == old(custom) + [old(newRequirement)] && newRequirement == ""
      ensures predefined == old(predefined) && suggested == old(suggested)
    {
      if key == "Enter" && ctrlKey {
        AddCustom();
      }
    }

    /**
     * `addSuggestedRequirement(req)`: a requirement already in the custom
     * list changes nothing; otherwise it is appended and every copy of it
     * leaves the suggestions.
     */
    method AddSuggested(req: string)
      modifies this
      ensures req in old(custom) ==> custom == old(custom) && suggested == old(suggested)
      ensures req !in old(custom) ==> custom == old(custom) + [req] && suggested == WithoutSuggestion(old(suggested), req)
      ensures req in custom && (req in old(custom) || req !in suggested)
      ensures predefined == old(predefined) && newRequirement == old(newRequirement)
    {
      if req in custom {
        return;
      }
      custom := custom + [req];
      suggested := WithoutSuggestion(suggested, req);
    }

    /**
     * `removeCustomRequirement(index)`: `splice(index, 1)` on a copy of the
     * list; for a valid index exactly that element goes and the rest keep
     * their order.
     */
    method RemoveCustom(index: int)
      modifies this
      ensures custom == RemovedAt(old(custom), SpliceStart(index, |old(custom)|))
      ensures 0 <= index < |old(custom)| ==>
        |custom| == |old(custom)| - 1 && custom[..index] == old(custom)[..index] && custom[index..] == old(custom)[index + 1..]
      ensures predefined == old(predefined) && newRequirement == old(newRequirement) && suggested == old(suggested)
    {
      custom := SpliceOne(custom, index);
    }
  }
}

/** The stages every history goes through between the database and the provider. */
module Pipeline {
  import opened Messages
  import opened Compress
  import opened ModePrompt
  import opened Anthropic
  import opened Repair

  type Summariser = seq<Message> -> string

  /** What one LLM call sends: the compressed list with the mode instruction inserted. */
  function Request(ms: seq<Message>, maxRecent: int, thresholdTokens: int, summarise: Summariser, prompt: string)
    : seq<Message>
  {
    WithModePrompt(CompressHistory(ms, maxRecent, thresholdTokens, summarise), prompt)
  }

  /** What is known of a list: nothing, that every call is answered, or also that every answer has its call. */
  datatype Pairing = Unknown | Answered | TwoSided

  ghost predicate Meets(pairing: Pairing, ms: seq<Message>) {
    && (!pairing.Unknown? ==> Covered(ms))
    && (pairing.TwoSided? ==> Owned({}, ms))
  }

  /** The provider's form of the same. */
  ghost predicate ProviderMeets(pairing: Pairing, out: seq<AMessage>) {
    && (!pairing.Unknown? ==> ToolUseAnswered(out))
    && (pairing.TwoSided? ==> ResultsRequested(out))
  }

  lemma {:induction false} ConvertMeetsIff(pairing: Pairing, ms: seq<Message>)
    ensures ProviderMeets(pairing, Converted(ms)) <==> Meets(pairing, ms)
  {
    ConvertAnsweredIff(ms);
    ConvertOwnedIff({}, ms);
  }

  lemma {:induction false} CompressKeepsPairing(pairing: Pairing, ms: seq<Message>, maxRecent: int,
                                                thresholdTokens: int, summarise: Summariser)
    requires Meets(pairing, ms)
    ensures Meets(pairing, CompressHistory(ms, maxRecent, thresholdTokens, summarise))
  {
    if !pairing.Unknown? {
      CompressKeepsCovered(ms, maxRecent, thresholdTokens, summarise);
    }
    if pairing.TwoSided? {
      CompressKeepsOwned(ms, maxRecent, thresholdTokens, summarise);
    }
  }

  /** Either half of the rule survives compression, mode insertion and conversion. */
  lemma {:induction false} PipelineKeepsPairing(pairing: Pairing, ms: seq<Message>, maxRecent: int,
                                                thresholdTokens: int, summarise: Summariser, prompt: string)
    requires Meets(pairing, ms)
    ensures var request := Request(ms, maxRecent, thresholdTokens, summarise, prompt);
            Meets(pairing, request) && ProviderMeets(pairing, Converted(request))
  {
    var compressed := CompressHistory(ms, maxRecent, thresholdTokens, summarise);
    CompressKeepsPairing(pairing, ms, maxRecent, thresholdTokens, summarise);
    InjectCoveredIff(compressed, prompt);
    InjectOwnedIff(compressed, prompt);
    ConvertMeetsIff(pairing, WithModePrompt(compressed, prompt));
  }

  /**
   * From a stored history whose kept tool-calls messages are covered, the first request has a result for every use
   * in the next message; if the history's tool messages all had their calls, every result also has its use.
   */
  lemma {:induction false} RepairedHistoryRequest(ms: seq<Message>, maxRecent: int, thresholdTokens: int,
                                                  summarise: Summariser, prompt: string)
    requires KeptCovered(ms)
    ensures var out := Converted(Request(Repaired(ms), maxRecent, thresholdTokens, summarise, prompt));
            ToolUseAnswered(out) && (Owned({}, ms) ==> ResultsRequested(out))
  {
    RepairCoversIff(ms);
    if Owned({}, ms) {
      RepairKeepsOwned(ms);
      PipelineKeepsPairing(TwoSided, Repaired(ms), maxRecent, thresholdTokens, summarise, prompt);
    } else {
      PipelineKeepsPairing(Answered, Repaired(ms), maxRecent, thresholdTokens, summarise, prompt);
    }
  }

  lemma {:induction false} OthersInsert(a: seq<Message>, prompt: string, b: seq<Message>)
    ensures Others(a + [System(prompt)] + b) == Others(a + b)
  {
    OthersConcat(a + [System(prompt)], b);
    OthersConcat(a, [System(prompt)]);
    PartitionSingle(System(prompt));
    OthersConcat(a, b);
  }

  lemma {:induction false} InstructionAdds(ms: seq<Message>, prompt: string)
    ensures System(prompt) in WithModePrompt(ms, prompt) && Others(WithModePrompt(ms, prompt)) == Others(ms)
  {
    var u := InsertionPoint(ms);
    assert WithModePrompt(ms, prompt)[u] == System(prompt);
    OthersInsert(ms[..u], prompt, ms[u..]);
    assert ms == ms[..u] + ms[u..];
  }

  /** A request carries the instruction, and when compression sets in at most the recent units beside system texts. */
  lemma {:induction false} RequestIsShort(ms: seq<Message>, maxRecent: int, thresholdTokens: int, summarise: Summariser,
                                          prompt: string)
    ensures var request := Request(ms, maxRecent, thresholdTokens, summarise, prompt);
            && System(prompt) in request
            && (maxRecent >= 1 && ms != [] && Triggers(ms, thresholdTokens) ==> |Grouped(Others(request))| <= maxRecent)
  {
    var compressed := CompressHistory(ms, maxRecent, thresholdTokens, summarise);
    InstructionAdds(compressed, prompt);
    if ms != [] && Triggers(ms, thresholdTokens) {
      CompressedShape(ms, maxRecent, thresholdTokens, summarise);
    }
  }
}

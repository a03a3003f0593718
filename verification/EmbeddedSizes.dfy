// How many tokens an embedded text has: the setting promises tokens per embedded chunk, header
// included (main.go, `ChunkTokens`; raw_ingest.go, `indexGroups`).
module EmbeddedSizes {
  import opened Wrappers
  import opened Records
  import opened ContextUnits
  import opened RawIngest
  import TS = TokenSplitter

  function Counter(cfg: Config): TS.TokenCounter { s => Some(cfg.countTokens(s)) }

  // The tokens that a chunk may have, 384 by default.
  function Limit(cfg: Config): int { if cfg.chunkTokens <= 0 then 384 else cfg.chunkTokens }

  // A text under a header has at most the tokens of both and one for the line break.
  ghost predicate Joins(cfg: Config) { forall h: string, t: string :: JoinsTo(cfg, h, t) }

  ghost predicate JoinsTo(cfg: Config, h: string, t: string) {
    cfg.countTokens(h + "\n" + t) <= cfg.countTokens(h) + 1 + cfg.countTokens(t)
  }

  // The header leaves room for twice the overlap.
  predicate LeavesRoom(cfg: Config, header: string) { cfg.countTokens(header) + 1 + 128 <= Limit(cfg) }

  // Every text embedded for the unit is within a number of tokens, or has a single rune of its own.
  ghost predicate AllWithin(cfg: Config, group: ChunkGroup, most: int) {
    forall i | 0 <= i < |ChunkRows(cfg, group)| ::
      cfg.countTokens(ChunkRows(cfg, group)[i].text) <= most || |Texts(cfg, group)[i]| == 1
  }

  // Where line breaks always cost one token, a chunk fits its budget exactly when the embedded
  // text fits the limit.
  lemma BudgetIsRoom(cfg: Config, header: string, text: string)
    requires header != "" && LeavesRoom(cfg, header)
    requires cfg.countTokens(header + "\n" + text) == cfg.countTokens(header) + 1 + cfg.countTokens(text)
    ensures cfg.countTokens(text) <= Budget(cfg, header) <==> cfg.countTokens(JoinHeader(header, text)) <= Limit(cfg)
  {
  }

  // The promise is kept of every unit whose header leaves room; a longer header adds to 128 tokens.
  lemma EmbeddedFits(cfg: Config, group: ChunkGroup)
    requires TS.Monotone(Counter(cfg)) && Joins(cfg) && group.header != ""
    ensures AllWithin(cfg, group,
                      if LeavesRoom(cfg, group.header) then Limit(cfg) else cfg.countTokens(group.header) + 1 + 128)
  {
    HeadedUnitsSplit(cfg, group);
    TS.SplitFits(Counter(cfg), group.text, Budget(cfg, group.header));
    SameSplit(cfg, group);
    hide TS.Split, TS.Monotone;
    forall i | 0 <= i < |ChunkRows(cfg, group)| && |Texts(cfg, group)[i]| != 1
      ensures cfg.countTokens(ChunkRows(cfg, group)[i].text) <=
        cfg.countTokens(group.header) + 1 + Budget(cfg, group.header)
    {
      var text := Texts(cfg, group)[i];
      assert text in Texts(cfg, group) && JoinsTo(cfg, group.header, text);
    }
  }

  lemma SameSplit(cfg: Config, group: ChunkGroup)
    ensures Pieces(cfg, group) == TS.Split(Counter(cfg), group.text, Budget(cfg, group.header))
  {
    assert Counter(cfg) == (s => Some(cfg.countTokens(s)));
  }

  // Of a counter with a token a rune: the promise is kept for all texts under a header exactly
  // when the header leaves room.
  lemma PromiseKeptIff(cfg: Config, group: ChunkGroup)
    requires (forall s: string :: cfg.countTokens(s) == |s|) && group.header != ""
    ensures (forall text: string :: AllWithin(cfg, group.(text := text), Limit(cfg))) <==> LeavesRoom(cfg, group.header)
  {
    RunesCount(cfg);
    if LeavesRoom(cfg, group.header) {
      forall text: string
        ensures AllWithin(cfg, group.(text := text), Limit(cfg))
      {
        EmbeddedFits(cfg, group.(text := text));
      }
    } else {
      var text := seq(128, _ => 'a');
      var g := group.(text := text);
      SameSplit(cfg, g);
      assert Texts(cfg, g) == [text];
      assert ChunkRows(cfg, g)[0].text == JoinHeader(g.header, text);
      assert !AllWithin(cfg, g, Limit(cfg));
    }
  }

  lemma RunesCount(cfg: Config)
    requires forall s: string :: cfg.countTokens(s) == |s|
    ensures TS.Monotone(Counter(cfg)) && Joins(cfg)
  {
    var tc := Counter(cfg);
    forall s: string
      ensures tc(s) == Some(|s|)
    {
    }
    forall s: string, t: string
      ensures TS.Grows(tc, s, t)
    {
      assert |s + t| == |s| + |t|;
    }
    forall h: string, t: string
      ensures JoinsTo(cfg, h, t)
    {
      assert |h + "\n" + t| == |h| + 1 + |t|;
    }
  }
}

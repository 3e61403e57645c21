/**
 * `FileContext` (coqlspclient/coq_lsp_structs.py): what a file defines so
 * far — its terms and aliases, each keyed by name, and its notations in the
 * order they were added.
 */
module FileContexts {

  /** The three parts of a context, as `__iter__` yields them. */
  datatype ContextParts = ContextParts(terms: map<string, string>, aliases: map<string, string>, notations: seq<string>)

  /**
   * The parts after an update: `dict.update` for terms and aliases (a key
   * present in the new entries takes the new value), `list.extend` for
   * notations.
   */
  function Merged(c: ContextParts, terms: map<string, string>, aliases: map<string, string>, notations: seq<string>): (r: ContextParts)
    ensures r.terms.Keys == c.terms.Keys + terms.Keys
    ensures forall k :: k in terms ==> r.terms[k] == terms[k]
    ensures forall k :: k in c.terms && k !in terms ==> r.terms[k] == c.terms[k]
    ensures r.aliases.Keys == c.aliases.Keys + aliases.Keys
    ensures forall k :: k in aliases ==> r.aliases[k] == aliases[k]
    ensures forall k :: k in c.aliases && k !in aliases ==> r.aliases[k] == c.aliases[k]
    ensures |r.notations| == |c.notations| + |notations|
    ensures r.notations[..|c.notations|] == c.notations && r.notations[|c.notations|..] == notations
  {
    ContextParts(c.terms + terms, c.aliases + aliases, c.notations + notations)
  }

  /** `update()` with its default (empty) arguments changes nothing. */
  lemma MergedNothing(c: ContextParts)
    ensures Merged(c, map[], map[], []) == c
  {
  }

  /** Two updates in a row are one update with the arguments combined, the later winning. */
  lemma MergedTwice(c: ContextParts,
                    t1: map<string, string>, a1: map<string, string>, n1: seq<string>,
                    t2: map<string, string>, a2: map<string, string>, n2: seq<string>)
    ensures Merged(Merged(c, t1, a1, n1), t2, a2, n2) == Merged(c, t1 + t2, a1 + a2, n1 + n2)
  {
    assert (c.terms + t1) + t2 == c.terms + (t1 + t2);
    assert (c.aliases + a1) + a2 == c.aliases + (a1 + a2);
    assert (c.notations + n1) + n2 == c.notations + (n1 + n2);
  }

  class FileContext {
    var terms: map<string, string>
    var aliases: map<string, string>
    var notations: seq<string>

    /** The current parts of the context. */
    function Parts(): ContextParts
      reads this
    {
      ContextParts(terms, aliases, notations)
    }

    constructor (terms: map<string, string>, aliases: map<string, string>, notations: seq<string>)
      ensures Parts() == ContextParts(terms, aliases, notations)
    {
      this.terms := terms;
      this.aliases := aliases;
      this.notations := notations;
    }

    /**
     * `__iter__`: the terms, the aliases and the notations, in that order,
     * so unpacking a context and passing the parts back to the constructor
     * gives an equal context.
     */
    method Iter() returns (parts: (map<string, string>, map<string, string>, seq<string>))
      ensures ContextParts(parts.0, parts.1, parts.2) == Parts()
    {
      parts := (terms, aliases, notations);
    }

    /** `update`: merges the new terms and aliases and appends the new notations. */
    method Update(newTerms: map<string, string>, newAliases: map<string, string>, newNotations: seq<string>)
      modifies this
      ensures Parts() == Merged(old(Parts()), newTerms, newAliases, newNotations)
    {
      terms := terms + newTerms;
      aliases := aliases + newAliases;
      notations := notations + newNotations;
    }
  }
}

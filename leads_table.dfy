/**
 * The leads table (src/components/tables/leads-table.tsx): the search box keeps the leads whose
 * name, company, tag or status contains the search term, ignoring letter case.
 */
module LeadsTable {
  import opened Seqs
  import Text

  datatype Lead = Lead(id: string, name: string, company: string, tag: string, status: string)

  /** The five sample leads the table lists. */
  function SampleLeads(): seq<Lead> {
    [ Lead("L001", "João Silva", "Empresa A", "Marketing", "Novo"),
      Lead("L002", "Maria Souza", "Empresa B", "Vendas", "Contato"),
      Lead("L003", "Carlos Lima", "Empresa A", "Suporte", "Qualificado"),
      Lead("L004", "Ana Paula", "Empresa C", "Marketing", "Novo"),
      Lead("L005", "Pedro Costa", "Empresa B", "Produto", "Contato") ]
  }

  /** `field.toLowerCase().includes(term.toLowerCase())`. */
  predicate FieldMatches(field: string, term: string) {
    Text.Contains(Text.Lower(field), Text.Lower(term))
  }

  /** The filter's predicate: any of the four fields matches. */
  function MatchesTerm(term: string): Lead -> bool {
    (lead: Lead) =>
      FieldMatches(lead.name, term) || FieldMatches(lead.company, term)
      || FieldMatches(lead.tag, term) || FieldMatches(lead.status, term)
  }

  /** `filteredLeads`. */
  function FilteredLeads(leads: seq<Lead>, searchTerm: string): (shown: seq<Lead>)
    ensures IsSubsequence(shown, leads)
    ensures forall lead :: lead in shown <==> (lead in leads &&
      (FieldMatches(lead.name, searchTerm) || FieldMatches(lead.company, searchTerm)
       || FieldMatches(lead.tag, searchTerm) || FieldMatches(lead.status, searchTerm)))
  {
    Filter(leads, MatchesTerm(searchTerm))
  }

  /** An empty search keeps every lead, in order. */
  lemma EmptyTermKeepsAll(leads: seq<Lead>)
    ensures FilteredLeads(leads, "") == leads
  {
    forall i | 0 <= i < |leads| ensures MatchesTerm("")(leads[i]) {
      Text.ContainsEmpty(Text.Lower(leads[i].name));
    }
    FilterKeepsAll(leads, MatchesTerm(""));
  }

  /** Only the lower-cased search term matters. */
  lemma DependsOnLowerTermOnly(leads: seq<Lead>, t1: string, t2: string)
    requires Text.Lower(t1) == Text.Lower(t2)
    ensures FilteredLeads(leads, t1) == FilteredLeads(leads, t2)
  {
    FilterAgreeing(leads, MatchesTerm(t1), MatchesTerm(t2));
  }

  /** Typing more never brings a lead back: the leads shown for `term + more` are among those shown for `term`. */
  lemma LongerTermNarrows(leads: seq<Lead>, term: string, more: string)
    ensures IsSubsequence(FilteredLeads(leads, term + more), FilteredLeads(leads, term))
  {
    Text.LowerConcat(term, more);
    forall i | 0 <= i < |leads| && MatchesTerm(term + more)(leads[i]) ensures MatchesTerm(term)(leads[i]) {
      var lead := leads[i];
      if FieldMatches(lead.name, term + more) {
        Text.ContainsPrefix(Text.Lower(lead.name), Text.Lower(term), Text.Lower(more));
      } else if FieldMatches(lead.company, term + more) {
        Text.ContainsPrefix(Text.Lower(lead.company), Text.Lower(term), Text.Lower(more));
      } else if FieldMatches(lead.tag, term + more) {
        Text.ContainsPrefix(Text.Lower(lead.tag), Text.Lower(term), Text.Lower(more));
      } else {
        Text.ContainsPrefix(Text.Lower(lead.status), Text.Lower(term), Text.Lower(more));
      }
    }
    FilterMonotone(leads, MatchesTerm(term + more), MatchesTerm(term));
  }
}

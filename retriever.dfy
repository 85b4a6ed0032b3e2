/** The guest documents of agents/course/agentic_rag/retriever.py: one
    `Document` per invitee of the dataset, in dataset order. Loading the
    dataset and the BM25 index built on the documents are not part of this
    model. */
module Retriever {
  import opened Text

  datatype Guest = Guest(name: string, relation: string, description: string, email: string)

  datatype Document = Document(pageContent: string, metadata: map<string, string>)

  /** The four labelled lines of a guest's page content, in order. */
  function Lines(g: Guest): seq<string>
  {
    ["Name: " + g.name, "Relation: " + g.relation, "Description: " + g.description, "Email: " + g.email]
  }

  function GuestDocument(g: Guest): (d: Document)
    ensures d.metadata.Keys == {"name"} && d.metadata["name"] == g.name
  {
    Document(Join(Lines(g), "\n"), map["name" := g.name])
  }

  /** The `docs` comprehension. */
  function Documents(guests: seq<Guest>): (docs: seq<Document>)
    ensures |docs| == |guests|
    ensures forall k :: 0 <= k < |guests| ==> docs[k] == GuestDocument(guests[k])
  {
    seq(|guests|, k requires 0 <= k < |guests| => GuestDocument(guests[k]))
  }

  /** The page content opens with the guest's name. */
  lemma PageContentStartsWithName(g: Guest)
    ensures StartsWith(GuestDocument(g).pageContent, "Name: " + g.name)
  {
    var rest := "Relation: " + g.relation + "\n" + Join(Lines(g)[2..], "\n");
    assert Lines(g)[1..] == ["Relation: " + g.relation] + Lines(g)[2..];
    assert GuestDocument(g).pageContent == ("Name: " + g.name) + ("\n" + Join(Lines(g)[1..], "\n"));
  }

  /** A field with no line break keeps the four lines apart: splitting the
      page content at line breaks gives back the four labelled lines. */
  lemma PageContentLines(g: Guest)
    requires '\n' !in g.name && '\n' !in g.relation && '\n' !in g.description && '\n' !in g.email
    ensures Split(GuestDocument(g).pageContent, '\n') == Lines(g)
  {
    NoBreakConcat("Name: ", g.name);
    NoBreakConcat("Relation: ", g.relation);
    NoBreakConcat("Description: ", g.description);
    NoBreakConcat("Email: ", g.email);
    SplitJoin(Lines(g), '\n');
  }

  lemma NoBreakConcat(tag: string, field: string)
    requires '\n' !in tag && '\n' !in field
    ensures '\n' !in tag + field
  {
  }
}

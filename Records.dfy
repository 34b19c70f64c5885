/** The supplier record that flows from the search service to the page and
    from the page to the save endpoint, and the one piece of logic the
    supplier card adds to it. */
module Records {
  import opened Wrappers

  /** A supplier candidate. `id` is absent until the record is persisted;
      `relevanceScore` is an opaque ranking value that nothing computes with. */
  datatype Supplier = Supplier(
    id: Option<int>,
    name: string,
    website: string,
    relevanceScore: real,
    notes: string)

  const NoWebsite: string := "No website provided"

  /** The link text the supplier card shows: the website, or a placeholder
      when the website is the empty string. */
  function WebsiteLabel(s: Supplier): (shown: string)
    ensures shown != ""
    ensures s.website != "" ==> shown == s.website
    ensures s.website == "" ==> shown == NoWebsite
  {
    if s.website != "" then s.website else NoWebsite
  }
}

/** What the archive takes from its platform - a digest, an artifact format check, letter
    case - and the storage keys it builds from them. */
module Platforms {
  import opened Records

  datatype Platform = Platform(
    checksum: Bytes -> string,
    acceptsFormat: (string, string, Bytes) -> bool,
    lower: string -> string)

  function DashSlashes(s: string): (r: string)
    ensures '/' !in r && |r| == |s|
    ensures forall i :: 0 <= i < |s| ==> r[i] == (if s[i] == '/' then '-' else s[i])
  {
    if s == "" then "" else [if s[0] == '/' then '-' else s[0]] + DashSlashes(s[1..])
  }

  /** `ArchiveWriter._storage_key_for`. */
  function StorageKeyFor(p: Platform, input: DocumentInput, id: DocumentId): StorageKey {
    p.lower(input.region) + "/" + input.tenantId + "/" + p.lower(input.reportType) + "/"
    + id + "." + DashSlashes(p.lower(input.outputFormat))
  }

  ghost predicate KeyNames(p: Platform, key: StorageKey, id: DocumentId) {
    exists input :: key == StorageKeyFor(p, input, id)
  }

  /** Minted identifiers are a prefix and hexadecimal digits. */
  predicate PlainId(id: DocumentId) {
    '/' !in id && '.' !in id
  }

  lemma SeparatorInside(a: string, x: string, b: string, y: string, c: char)
    requires a + [c] + x == b + [c] + y && |a| < |b|
    ensures c in x && c in b
  {
    var k := a + [c] + x;
    assert k[|b|] == (b + [c] + y)[|b|] == c && k[|b|] == x[|b| - |a| - 1];
    assert k[|a|] == c && (b + [c] + y)[|a|] == b[|a|];
  }

  lemma SplitsAlike(a: string, x: string, b: string, y: string, c: char)
    requires a + [c] + x == b + [c] + y && ((c !in x && c !in y) || (c !in a && c !in b))
    ensures a == b && x == y
  {
    if |a| < |b| { SeparatorInside(a, x, b, y, c); }
    if |b| < |a| { SeparatorInside(b, y, a, x, c); }
    var k := a + [c] + x;
    assert a == k[..|a|] == (b + [c] + y)[..|a|];
    assert x == k[|a| + 1..] == (b + [c] + y)[|a| + 1..];
  }

  /** Storage keys are injective in the document id, whatever the regions, tenants, report
      types and output formats contain. */
  lemma StorageKeysNameOneDocument(p: Platform, input: DocumentInput, id: DocumentId,
                                   input': DocumentInput, id': DocumentId)
    requires PlainId(id) && PlainId(id') && StorageKeyFor(p, input, id) == StorageKeyFor(p, input', id')
    ensures id == id'
  {
    var a := p.lower(input.region) + "/" + input.tenantId + "/" + p.lower(input.reportType);
    var b := p.lower(input'.region) + "/" + input'.tenantId + "/" + p.lower(input'.reportType);
    var x := id + "." + DashSlashes(p.lower(input.outputFormat));
    var y := id' + "." + DashSlashes(p.lower(input'.outputFormat));
    assert StorageKeyFor(p, input, id) == a + "/" + x;
    assert StorageKeyFor(p, input', id') == b + "/" + y;
    SplitsAlike(a, x, b, y, '/');
    SplitsAlike(id, DashSlashes(p.lower(input.outputFormat)), id', DashSlashes(p.lower(input'.outputFormat)), '.');
  }

  /** A region, tenant and report type that each make one path segment. */
  ghost predicate PlainSegments(p: Platform, input: DocumentInput) {
    '/' !in p.lower(input.region) && '/' !in input.tenantId && '/' !in p.lower(input.reportType)
  }

  /** Where those are single segments, a key names all of what it was built from, under its
      region and tenant. */
  lemma StorageKeysNameTheirDelivery(p: Platform, input: DocumentInput, id: DocumentId,
                                     input': DocumentInput, id': DocumentId)
    requires PlainSegments(p, input) && PlainSegments(p, input') && PlainId(id) && PlainId(id')
    requires StorageKeyFor(p, input, id) == StorageKeyFor(p, input', id')
    ensures p.lower(input.region) == p.lower(input'.region) && input.tenantId == input'.tenantId
    ensures p.lower(input.reportType) == p.lower(input'.reportType)
    ensures DashSlashes(p.lower(input.outputFormat)) == DashSlashes(p.lower(input'.outputFormat))
    ensures p.lower(input.region) + "/" + input.tenantId + "/" <= StorageKeyFor(p, input, id)
  {
    var y, y' := FileName(p, input, id), FileName(p, input', id');
    var c, c' := p.lower(input.reportType), p.lower(input'.reportType);
    var a, a' := p.lower(input.region), p.lower(input'.region);
    KeyIsPath(p, input, id);
    KeyIsPath(p, input', id');
    SplitsAlike(a, input.tenantId + "/" + (c + "/" + y), a', input'.tenantId + "/" + (c' + "/" + y'), '/');
    SplitsAlike(input.tenantId, c + "/" + y, input'.tenantId, c' + "/" + y', '/');
    SplitsAlike(c, y, c', y', '/');
    FileNamesName(p, input, id, input', id');
  }

  function FileName(p: Platform, input: DocumentInput, id: DocumentId): string {
    id + "." + DashSlashes(p.lower(input.outputFormat))
  }

  lemma KeyIsPath(p: Platform, input: DocumentInput, id: DocumentId)
    ensures var rest := p.lower(input.reportType) + "/" + FileName(p, input, id);
            && StorageKeyFor(p, input, id) == p.lower(input.region) + "/" + (input.tenantId + "/" + rest)
            && StorageKeyFor(p, input, id) == (p.lower(input.region) + "/" + input.tenantId + "/") + rest
  {
  }

  lemma FileNamesName(p: Platform, input: DocumentInput, id: DocumentId, input': DocumentInput, id': DocumentId)
    requires PlainId(id) && PlainId(id') && FileName(p, input, id) == FileName(p, input', id')
    ensures id == id' && DashSlashes(p.lower(input.outputFormat)) == DashSlashes(p.lower(input'.outputFormat))
  {
    SplitsAlike(id, DashSlashes(p.lower(input.outputFormat)), id', DashSlashes(p.lower(input'.outputFormat)), '.');
  }
}

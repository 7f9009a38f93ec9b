/** Concurrent saves of new documents: what each knows between its read and its commit, and
    why the unique indexes let through exactly what the atomic save lets through. */
module PostgresSaves {
  import opened Records
  import opened Transitions
  import opened CustodyInvariants
  import opened Postgres
  import opened PostgresRefinement

  ghost predicate Unrecorded(s: Store, x: Document) {
    && x == NewDocument(x.input, x.documentId, x.storageKey, x.checksum, x.sizeBytes, x.createdAt)
    && x.documentId !in s.docs && forall d :: d in s.docs ==> s.docs[d].storageKey != x.storageKey
  }

  ghost predicate SaveInv(s: Store, x: SaveTxn) {
    match x.phase
    case SaveEnded(reply, at) => RowsInv(at) && SameReply(Perform(at, DoSave(x.document)).value, reply)
    case SaveAborted => true
    case Stored => Unrecorded(s, x.document) && x.document.input.archiveRequestId !in s.byRequest
    case _ => Unrecorded(s, x.document)
  }

  ghost predicate SaveOk(s: Store, saves: map<nat, SaveTxn>, t: nat) {
    t in saves && SaveInv(s, saves[t])
  }

  /** Open saves have identifiers and keys of their own; at most one holds a request id. */
  ghost predicate SavesApart(saves: map<nat, SaveTxn>, a: nat, b: nat) {
    && a in saves && b in saves
    && (!SaveFinished(saves[a]) && !SaveFinished(saves[b]) ==>
          saves[a].document.documentId != saves[b].document.documentId
          && saves[a].document.storageKey != saves[b].document.storageKey)
    && (saves[a].phase.Stored? && saves[b].phase.Stored? ==>
          saves[a].document.input.archiveRequestId != saves[b].document.input.archiveRequestId)
  }

  ghost predicate SavesInv(s: Store, saves: map<nat, SaveTxn>) {
    && (forall t {:trigger SaveOk(s, saves, t)} :: t in saves ==> SaveOk(s, saves, t))
    && (forall a, b {:trigger SavesApart(saves, a, b)} :: a in saves && b in saves && a != b
         ==> SavesApart(saves, a, b))
  }

  /** The documents, their keys and the request index are as they were. */
  ghost predicate SameDocuments(s: Store, s': Store) {
    && s'.docs.Keys == s.docs.Keys && s'.byRequest == s.byRequest
    && forall d :: d in s.docs ==> s'.docs[d].storageKey == s.docs[d].storageKey
  }

  lemma SavesSurvive(s: Store, s': Store, saves: map<nat, SaveTxn>)
    requires SavesInv(s, saves) && SameDocuments(s, s')
    ensures SavesInv(s', saves)
  {
    forall t | t in saves ensures SaveOk(s', saves, t) { assert SaveOk(s, saves, t); }
  }

  lemma BeginSaveKeeps(s: Store, saves: map<nat, SaveTxn>, t: nat, x: Document)
    requires SavesInv(s, saves) && t !in saves && NewlyMinted(s, saves, x)
    ensures SavesInv(s, saves[t := SaveTxn(x, Looking)])
  {
    var saves' := saves[t := SaveTxn(x, Looking)];
    forall u | u in saves' ensures SaveOk(s, saves', u) { if u != t { assert SaveOk(s, saves, u); } }
    forall a, b | a in saves' && b in saves' && a != b ensures SavesApart(saves', a, b) {
      if a != t && b != t { assert SavesApart(saves, a, b); }
    }
  }

  /** What a save knows after its next statement; a refusal is the atomic save's. */
  lemma StatementKnows(s: Store, x: SaveTxn)
    requires RowsInv(s) && SaveInv(s, x)
    ensures SaveInv(s, SaveAdvances(s, x)) && SaveAdvances(s, x).document == x.document
  {
    var request := x.document.input.archiveRequestId;
    if request in s.byRequest { assert RequestInv(s, request); }
  }

  lemma SaveStatementKeeps(s: Store, saves: map<nat, SaveTxn>, t: nat)
    requires RowsInv(s) && SavesInv(s, saves) && t in saves && !SaveBlocked(saves, t)
    ensures SavesInv(s, saves[t := SaveAdvances(s, saves[t])])
  {
    var saves' := saves[t := SaveAdvances(s, saves[t])];
    assert SaveOk(s, saves, t);
    StatementKnows(s, saves[t]);
    forall u | u in saves' ensures SaveOk(s, saves', u) { assert SaveOk(s, saves, u); }
    forall a, b | a in saves' && b in saves' && a != b ensures SavesApart(saves', a, b) {
      assert SavesApart(saves, a, b);
    }
  }

  lemma AbortSaveKeeps(s: Store, saves: map<nat, SaveTxn>, t: nat)
    requires SavesInv(s, saves) && t in saves
    ensures SavesInv(s, saves[t := SaveTxn(saves[t].document, SaveAborted)])
  {
    var saves' := saves[t := SaveTxn(saves[t].document, SaveAborted)];
    forall u | u in saves' ensures SaveOk(s, saves', u) { assert SaveOk(s, saves, u); }
    forall a, b | a in saves' && b in saves' && a != b
        ensures SavesApart(saves', a, b) { assert SavesApart(saves, a, b); }
  }

  /** Committing a stored row is the atomic save of a new document. */
  lemma SaveCommits(s: Store, x: SaveTxn)
    requires SaveInv(s, x) && x.phase.Stored?
    ensures Perform(s, DoSave(x.document)).value == SaveReply(Ok(x.document)) && Admissible(s, DoSave(x.document))
    ensures var s' := Save(s, x.document).store;
            s' == s.(docs := s.docs[x.document.documentId := x.document],
                     byRequest := s.byRequest[x.document.input.archiveRequestId := x.document.documentId])
  {
  }

  lemma OtherSaveSurvives(s: Store, x: SaveTxn, other: SaveTxn)
    requires SaveInv(s, x) && x.phase.Stored? && SaveInv(s, other)
    requires !SaveFinished(other) ==>
               x.document.documentId != other.document.documentId && x.document.storageKey != other.document.storageKey
    requires other.phase.Stored? ==> x.document.input.archiveRequestId != other.document.input.archiveRequestId
    ensures SaveInv(Save(s, x.document).store, other)
  {
    SaveCommits(s, x);
  }

  lemma CommitSaveKeeps(s: Store, saves: map<nat, SaveTxn>, t: nat)
    requires RowsInv(s) && SavesInv(s, saves) && t in saves && saves[t].phase.Stored?
    ensures var x := saves[t].document;
            SavesInv(Save(s, x).store, saves[t := SaveTxn(x, SaveEnded(SaveReply(Ok(x)), s))])
  {
    var x := saves[t].document;
    var s', saves' := Save(s, x).store, saves[t := SaveTxn(x, SaveEnded(SaveReply(Ok(x)), s))];
    assert SaveOk(s, saves, t);
    SaveCommits(s, saves[t]);
    forall u | u in saves' ensures SaveOk(s', saves', u) {
      if u != t {
        assert SaveOk(s, saves, u) && SavesApart(saves, t, u);
        OtherSaveSurvives(s, saves[t], saves[u]);
      }
    }
    forall a, b | a in saves' && b in saves' && a != b
        ensures SavesApart(saves', a, b) { assert SavesApart(saves, a, b); }
  }

  /** The storage-key index never refuses, nor blocks, a save: only a request id can. */
  lemma KeysNeverConflict(s: Store, saves: map<nat, SaveTxn>, t: nat, u: nat)
    requires SavesInv(s, saves) && t in saves && saves[t].phase.Inserting? && u in saves && u != t
        && saves[u].phase.Stored?
    ensures SharesEntry(saves[t].document, saves[u].document)
            <==> saves[t].document.input.archiveRequestId == saves[u].document.input.archiveRequestId
    ensures EntryTaken(s, saves[t].document) <==> saves[t].document.input.archiveRequestId in s.byRequest
  {
    assert SaveOk(s, saves, t) && SavesApart(saves, t, u);
  }
}

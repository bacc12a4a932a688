/** How the two relay adaptors relate: the `vidgo` package's one
    (kling_adaptor.go), which calls Kling itself, and the `adapters/kling`
    package's one (adapters/kling/kling_adaptor.go), which goes through the
    Kling provider. */
module RelayAgreement {
  import opened Options
  import opened Json
  import opened RelayTypes
  import KP = KlingProvider
  import RR = RootRelay
  import PR = ProviderRelay

  /** The size table of one and the ratio buckets of the other agree: for
      every size name, naming the ratio directly gives what the provider's
      buckets give on the width and height the other adaptor derives (an
      unknown size is 0 by 0, which the buckets call square). */
  lemma SizeAgreement(size: string)
    ensures var dims := PR.SizeDimensions(size).GetOr((0, 0));
      RR.SizeAspectRatio(size) == KP.AspectRatio(dims.0, dims.1)
  {
    var dims := PR.SizeDimensions(size).GetOr((0, 0));
    if dims.1 > 0 {
      KP.AspectRatioBuckets(dims.0, dims.1);
    }
  }

  /** Both list the same models. */
  lemma ModelListsAgree(p: KP.Provider)
    ensures RR.ModelList() == KP.SupportedModels(p)
  {
  }

  /** A reply the provider-backed adaptor accepts on the Kling path
      (fully decoded, code 0, non-empty task id) is accepted by the other
      with the same task id and bytes: its narrower decoding cannot fail
      where the wider one succeeded. */
  lemma AcceptanceAgrees(statusCode: int, raw: string, doc: Doc)
    requires PR.DecodeResponse(doc).Complete()
    requires PR.DecodeResponse(doc).value.code == 0 && PR.DecodeResponse(doc).value.data.taskId != ""
    ensures PR.DoResponse(statusCode, Readable(raw, doc)).Accepted?
    ensures RR.DoResponse(statusCode, Readable(raw, doc))
      == Accepted(PR.DoResponse(statusCode, Readable(raw, doc)).taskId, raw)
  {
    if doc.root.Obj? {
      var f := doc.root.fields;
      var data := Member(f, "data");
      assert IntField(Member(f, "code"), "Response.code").Complete();
      assert StringField(Member(f, "message"), "Response.message").Complete();
      assert PR.DecodeReplyData(data).Complete();
      assert StructMembers(data, "Response.data").Complete();
      var dm := StructMembers(data, "Response.data").value;
      assert StringField(Member(dm, "task_id"), "TaskData.task_id").Complete();
      assert RR.DecodeKling(doc).Complete();
    }
  }

  /** They part ways on an empty task id: the adaptor's own
      acknowledgement with an empty id is accepted by the direct adaptor,
      with the empty id, and refused by the provider-backed one. */
  lemma EmptyTaskIdDiffers(raw: string, status: string)
    ensures RR.DoResponse(200, Readable(raw, Json(PR.Ack("", status)))) == Accepted("", raw)
    ensures PR.DoResponse(200, Readable(raw, Json(PR.Ack("", status)))).Rejected?
  {
    PR.AckReadBack(raw, "", status);
    var f := PR.Ack("", status).fields;
    var data := map["task_id" := Str(""), "status" := Str(status)];
    assert Member(f, "code") == Num(0) && Member(f, "message") == Str("success");
    assert Member(f, "data") == Obj(data) && Member(data, "task_id") == Str("");
  }
}

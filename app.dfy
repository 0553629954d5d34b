/** The editor component of App.tsx as a state machine: the quote in `data`,
    the `isGenerating` flag, and the export that is waiting for its PDF.
    Each `setData` is one synchronous replacement of `data` by the snapshot
    the store functions compute. An export handler runs in two steps: a
    click starts it (the flag goes up), and the moment generation returns
    finishes it (the browser actions happen and the flag goes down). */
module App {
  import opened Types
  import QuoteStore
  import Export

  /** An export that is waiting for its PDF, with what its handler computed
      before the wait: the client name for the download's file name, the
      message for a share. */
  datatype Job = DownloadJob(clientName: string) | ShareJob(message: string)

  class QuoteEditor {
    var data: QuoteData
    var isGenerating: bool
    var job: Option<Job>

    /** The store invariant holds, and the flag is up exactly while an export
        is waiting. */
    ghost predicate Valid()
      reads this
    {
      QuoteStore.Valid(data) && (isGenerating <==> job.Some?)
    }

    /** The first render: the initial quote and no export running. */
    constructor (firstId: string)
      ensures Valid()
      ensures data == QuoteStore.Initial(firstId) && !isGenerating && job == None
    {
      data := QuoteStore.Initial(firstId);
      isGenerating := false;
      job := None;
    }

    /** The "+ Add Serviço" button. */
    method AddService(freshId: string)
      requires Valid() && freshId !in QuoteStore.Ids(data.services)
      modifies this
      ensures Valid()
      ensures data == QuoteStore.AddService(old(data), freshId)
      ensures |data.services| == |old(data).services| + 1
      ensures QuoteStore.Total(data.services) == QuoteStore.Total(old(data).services)
      ensures isGenerating == old(isGenerating) && job == old(job)
    {
      data := QuoteStore.AddService(data, freshId);
    }

    /** A row's remove button; the last row stays. */
    method RemoveService(id: string)
      requires Valid()
      modifies this
      ensures Valid() && |data.services| >= 1
      ensures data == QuoteStore.RemoveService(old(data), id)
      ensures |old(data).services| == 1 ==> data == old(data)
      ensures isGenerating == old(isGenerating) && job == old(job)
    {
      data := QuoteStore.RemoveService(data, id);
    }

    /** A row's description or price input. */
    method UpdateService(id: string, v: FieldValue)
      requires Valid()
      modifies this
      ensures Valid()
      ensures data == QuoteStore.UpdateService(old(data), id, v)
      ensures |data.services| == |old(data).services|
      ensures v.Description? ==> QuoteStore.Total(data.services) == QuoteStore.Total(old(data).services)
      ensures isGenerating == old(isGenerating) && job == old(job)
    {
      if v.Description? {
        QuoteStore.DescriptionEditKeepsTotal(data.services, id, v.text);
      }
      data := QuoteStore.UpdateService(data, id, v);
    }

    /** One of the four text inputs of the form. */
    method SetText(f: QuoteStore.TextField, text: string)
      requires Valid()
      modifies this
      ensures Valid()
      ensures data == QuoteStore.SetText(old(data), f, text)
      ensures data.services == old(data).services
      ensures isGenerating == old(isGenerating) && job == old(job)
    {
      data := QuoteStore.SetText(data, f, text);
    }

    /** The "BAIXAR PDF" button. While an export runs the button is disabled
        and a click does nothing; otherwise the flag goes up and the
        handler waits for the PDF, holding the client name it will use. */
    method ClickDownload() returns (started: bool)
      requires Valid()
      modifies this
      ensures Valid() && data == old(data)
      ensures started <==> !old(isGenerating)
      ensures started ==> isGenerating && job == Some(DownloadJob(old(data).clientName))
      ensures !started ==> isGenerating == old(isGenerating) && job == old(job)
    {
      started := !isGenerating;
      if started {
        isGenerating := true;
        job := Some(DownloadJob(data.clientName));
      }
    }

    /** Generation of the download's PDF has returned: the file is saved
        when there is a blob, and the flag goes down either way. */
    method FinishDownload(blobProduced: bool) returns (effects: seq<Export.Effect>)
      requires Valid() && job.Some? && job.value.DownloadJob?
      modifies this
      ensures Valid() && data == old(data)
      ensures !isGenerating && job == None
      ensures effects == Export.DownloadEffects(old(job).value.clientName, blobProduced)
      ensures effects != [] <==> blobProduced
    {
      effects := Export.DownloadEffects(job.value.clientName, blobProduced);
      isGenerating := false;
      job := None;
    }

    /** The "ENVIAR NO ZAP" button. Disabled while an export runs; otherwise
        the flag goes up, the message is composed from the current quote and
        the handler waits for the PDF. */
    method ClickShare(brl: real -> string) returns (started: bool)
      requires Valid()
      modifies this
      ensures Valid() && data == old(data)
      ensures started <==> !old(isGenerating)
      ensures started ==> isGenerating && job == Some(ShareJob(Export.ShareMessage(old(data), brl)))
      ensures !started ==> isGenerating == old(isGenerating) && job == old(job)
    {
      started := !isGenerating;
      if started {
        isGenerating := true;
        job := Some(ShareJob(Export.ShareMessage(data, brl)));
      }
    }

    /** Generation of the share's PDF has returned (and, on the native path,
        the share call has settled): the delivery follows the share
        decision, and the flag goes down. */
    method FinishShare(encode: string -> string, blobProduced: bool, device: Export.Device,
                       shareAccepted: bool) returns (effects: seq<Export.Effect>)
      requires Valid() && job.Some? && job.value.ShareJob?
      modifies this
      ensures Valid() && data == old(data)
      ensures !isGenerating && job == None
      ensures effects == Export.ShareEffects(old(job).value.message, encode, blobProduced, device, shareAccepted)
    {
      effects := Export.ShareEffects(job.value.message, encode, blobProduced, device, shareAccepted);
      isGenerating := false;
      job := None;
    }
  }

  /** A second click on either export button while the first export waits
      starts nothing, and the first export's delivery is the one its own
      click prepared. */
  method OverlappingClicks(e: QuoteEditor, brl: real -> string, blobProduced: bool)
    returns (second: bool, third: bool, effects: seq<Export.Effect>)
    requires e.Valid() && !e.isGenerating
    modifies e
    ensures !second && !third
    ensures effects == Export.DownloadEffects(old(e.data).clientName, blobProduced)
    ensures e.Valid() && !e.isGenerating && e.data == old(e.data)
  {
    var first := e.ClickDownload();
    second := e.ClickShare(brl);
    third := e.ClickDownload();
    effects := e.FinishDownload(blobProduced);
  }
}

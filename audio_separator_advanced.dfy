/**
 * The upload panel of the AI separator: a file is checked (size first, then
 * type) before it is handed to the upload step, which refuses to start until
 * the separation model is loaded and otherwise walks through a fixed sequence
 * of progress and status updates, with any stage allowed to throw.
 */
module AudioSeparatorAdvanced {
  import opened Wrappers

  /** The browser `File` fields the panel reads. */
  datatype File = File(name: string, size: nat, mimeType: string)

  const MaxFileSize: nat := 50 * 1024 * 1024
  const SupportedFormats: seq<string> := ["audio/mp3", "audio/wav", "audio/m4a", "audio/ogg"]

  const SizeMessage := "파일 크기는 50MB를 초과할 수 없습니다."
  const TypeMessage := "지원하지 않는 파일 형식입니다. MP3, WAV, M4A, OGG 파일만 가능합니다."
  const WaitingMessage := "모델이 아직 로딩 중입니다. 잠시만 기다려주세요..."
  const AnalysingMessage := "오디오 파일 분석 중..."
  const DecodingMessage := "오디오 디코딩 중..."
  const SeparatingMessage := "AI 오디오 분리 중..."
  const SavingMessage := "분리된 트랙 저장 중..."
  const LinkingMessage := "트랙 믹서 연동 중..."
  const DoneMessage := "오디오 분리 완료!"
  const LoadingModelMessage := "AI 모델 로딩 중..."
  const ModelReadyMessage := "모델 로딩 완료! 오디오 파일을 선택하세요."
  const ModelFailedMessage := "모델 로딩 실패. 페이지를 새로고침해주세요."
  const UnknownError := "알 수 없는 오류"

  /** What the file input handler decides. */
  datatype Selection = NothingSelected | Rejected(status: string) | Accepted(file: File)

  /** `handleFileSelect`: the size guard runs before the type guard. */
  function SelectFile(file: Option<File>): (r: Selection)
    ensures file.None? <==> r == NothingSelected
    ensures file.Some? && file.value.size > MaxFileSize ==> r == Rejected(SizeMessage)
    ensures file.Some? && file.value.size <= MaxFileSize && file.value.mimeType !in SupportedFormats
      ==> r == Rejected(TypeMessage)
    ensures r.Accepted? <==>
      file.Some? && file.value.size <= MaxFileSize && file.value.mimeType in SupportedFormats
    ensures r.Accepted? ==> r.file == file.value
  {
    match file
    case None => NothingSelected
    case Some(f) =>
      if f.size > MaxFileSize then Rejected(SizeMessage)
      else if f.mimeType !in SupportedFormats then Rejected(TypeMessage)
      else Accepted(f)
  }

  lemma SizeLimitIsInclusive(name: string, mimeType: string)
    requires mimeType in SupportedFormats
    ensures SelectFile(Some(File(name, MaxFileSize, mimeType))) == Accepted(File(name, MaxFileSize, mimeType))
    ensures SelectFile(Some(File(name, MaxFileSize + 1, mimeType))) == Rejected(SizeMessage)
    ensures MaxFileSize == 52428800
  {
  }

  /** The whitelist is exact: the common `audio/mpeg` spelling of MP3 is refused. */
  lemma MpegIsRefused(name: string, size: nat)
    requires size <= MaxFileSize
    ensures SelectFile(Some(File(name, size, "audio/mpeg"))) == Rejected(TypeMessage)
  {
    assert "audio/mpeg" != SupportedFormats[0] by { assert "audio/mpeg"[8] != SupportedFormats[0][8]; }
  }

  // ---- handleFileUpload ----

  /** The stage whose awaited step throws, when one does. */
  datatype Fault =
    | DecodeFailed       // fileToAudioBuffer
    | SeparationFailed   // separateAudio
    | EncodeFailed       // audioBufferToBlob / createObjectURL
    | CallbackFailed     // onAudioSeparated

  function StageIndex(f: Fault): nat {
    match f
    case DecodeFailed => 0
    case SeparationFailed => 1
    case EncodeFailed => 2
    case CallbackFailed => 3
  }

  const SuccessProgress: seq<nat> := [0, 20, 40, 70, 90, 100]

  /** The progress values written by one upload that got past the model guard. */
  function ProgressTrace(fault: Option<Fault>): (t: seq<nat>)
    ensures fault.None? ==> t == SuccessProgress
    ensures fault.Some? ==> t == SuccessProgress[..StageIndex(fault.value) + 2]
  {
    match fault
    case None => SuccessProgress
    case Some(f) => SuccessProgress[..StageIndex(f) + 2]
  }

  predicate NonDecreasing(s: seq<nat>) {
    forall i, j :: 0 <= i < j < |s| ==> s[i] <= s[j]
  }

  lemma ProgressNeverGoesBack(fault: Option<Fault>)
    ensures NonDecreasing(ProgressTrace(fault))
    ensures ProgressTrace(fault)[0] == 0
    ensures ProgressTrace(fault)[|ProgressTrace(fault)| - 1] == 100 <==> fault.None?
  {
  }

  /** The status an exception leaves: the error's message, or a fixed text for a non-Error value. */
  function ErrorStatus(message: Option<string>): (s: string)
    ensures message.Some? ==> s == "오류: " + message.value
    ensures message.None? ==> s == "오류: " + UnknownError
  {
    "오류: " + match message case Some(m) => m case None => UnknownError
  }

  class UploadPanel {
    var isProcessing: bool
    var progress: nat
    var status: string
    var isModelLoaded: bool
    var processedFiles: seq<string>
    /** Every value `setProgress` was given, oldest first, over the panel's lifetime. */
    ghost var progressLog: seq<nat>

    constructor ()
      ensures !isProcessing && progress == 0 && status == "" && !isModelLoaded
      ensures processedFiles == [] && progressLog == []
    {
      isProcessing, progress, status, isModelLoaded := false, 0, "", false;
      processedFiles, progressLog := [], [];
    }

    /** `initializeModel`, with the outcome of the awaited model load as a parameter. */
    method InitializeModel(loadSucceeds: bool)
      modifies this
      ensures old(isModelLoaded) ==> unchanged(this)
      ensures !old(isModelLoaded) ==>
        (isModelLoaded == loadSucceeds &&
         status == (if loadSucceeds then ModelReadyMessage else ModelFailedMessage))
      ensures isProcessing == old(isProcessing) && progress == old(progress)
      ensures processedFiles == old(processedFiles) && progressLog == old(progressLog)
    {
      if !isModelLoaded {
        status := LoadingModelMessage;
        if loadSucceeds {
          isModelLoaded := true;
          status := ModelReadyMessage;
        } else {
          status := ModelFailedMessage;
        }
      }
    }

    /** One `setProgress` / `setStatus` pair. */
    method Advance(p: nat, s: string)
      modifies this`progress, this`progressLog, this`status
      ensures progress == p && status == s && progressLog == old(progressLog) + [p]
    {
      progress := p;
      progressLog := progressLog + [p];
      status := s;
    }

    /** The `catch` and `finally` blocks. */
    method Abort(message: Option<string>)
      modifies this`status, this`isProcessing
      ensures status == ErrorStatus(message) && !isProcessing
    {
      status := ErrorStatus(message);
      isProcessing := false;
    }

    /**
     * `handleFileUpload` past the model guard: the stages in order, each
     * announced by a progress value, until one throws or all are done.
     */
    method RunStages(file: File, fault: Option<Fault>, message: Option<string>)
      requires isModelLoaded
      modifies this
      ensures !isProcessing && progressLog == old(progressLog) + ProgressTrace(fault)
      ensures progressLog != [] && progress == progressLog[|progressLog| - 1]
      ensures fault.None? ==> status == DoneMessage && processedFiles == old(processedFiles) + [file.name]
      ensures fault.Some? ==> status == ErrorStatus(message) && processedFiles == old(processedFiles)
      ensures isModelLoaded
    {
      ghost var log0 := progressLog;
      isProcessing := true;
      Advance(0, AnalysingMessage);
      Advance(20, DecodingMessage);
      assert progressLog == log0 + SuccessProgress[..2];
      if fault == Some(DecodeFailed) {
        Abort(message);
        return;
      }
      Advance(40, SeparatingMessage);
      assert progressLog == log0 + SuccessProgress[..3];
      if fault == Some(SeparationFailed) {
        Abort(message);
        return;
      }
      LaterStages(file, fault, message);
      assert ProgressTrace(fault) == SuccessProgress[..3] + ProgressTrace(fault)[3..];
    }

    /** The stages after separation: saving the tracks, handing them to the mixer, done. */
    method LaterStages(file: File, fault: Option<Fault>, message: Option<string>)
      requires fault != Some(DecodeFailed) && fault != Some(SeparationFailed)
      modifies this
      ensures !isProcessing && progressLog == old(progressLog) + ProgressTrace(fault)[3..]
      ensures progressLog != [] && progress == progressLog[|progressLog| - 1]
      ensures fault.None? ==> status == DoneMessage && processedFiles == old(processedFiles) + [file.name]
      ensures fault.Some? ==> status == ErrorStatus(message) && processedFiles == old(processedFiles)
      ensures isModelLoaded == old(isModelLoaded)
    {
      ghost var log0 := progressLog;
      Advance(70, SavingMessage);
      if fault == Some(EncodeFailed) {
        Abort(message);
        return;
      }
      Advance(90, LinkingMessage);
      assert progressLog == log0 + SuccessProgress[3..5];
      if fault == Some(CallbackFailed) {
        Abort(message);
        return;
      }
      Advance(100, DoneMessage);
      assert progressLog == log0 + SuccessProgress[3..];
      processedFiles := processedFiles + [file.name];
      isProcessing := false;
    }

    /**
     * `handleFileUpload`. `fault` names the stage that throws, if any, and
     * `message` the thrown error's message (None when it is not an Error).
     */
    method HandleFileUpload(file: File, fault: Option<Fault>, message: Option<string>)
      modifies this
      ensures !old(isModelLoaded) ==>
        status == WaitingMessage && isProcessing == old(isProcessing) && progress == old(progress) &&
        processedFiles == old(processedFiles) && progressLog == old(progressLog)
      ensures old(isModelLoaded) ==> !isProcessing && progressLog == old(progressLog) + ProgressTrace(fault)
      ensures old(isModelLoaded) ==> progressLog != [] && progress == progressLog[|progressLog| - 1]
      ensures old(isModelLoaded) && fault.None? ==>
        status == DoneMessage && processedFiles == old(processedFiles) + [file.name]
      ensures old(isModelLoaded) && fault.Some? ==>
        status == ErrorStatus(message) && processedFiles == old(processedFiles)
      ensures isModelLoaded == old(isModelLoaded)
    {
      if !isModelLoaded {
        status := WaitingMessage;
        return;
      }
      RunStages(file, fault, message);
    }

    /** The three-second timer armed after a success fires. */
    method ClearAfterSuccess()
      modifies this`status, this`progress, this`progressLog
      ensures status == "" && progress == 0 && progressLog == old(progressLog) + [0]
    {
      status := "";
      progress := 0;
      progressLog := progressLog + [0];
    }

    /** `handleFileSelect`: the guards, then the upload of an accepted file. */
    method HandleFileSelect(file: Option<File>, fault: Option<Fault>, message: Option<string>)
      modifies this
      ensures SelectFile(file) == NothingSelected ==> unchanged(this)
      ensures SelectFile(file).Rejected? ==>
        status == SelectFile(file).status && isProcessing == old(isProcessing) &&
        progress == old(progress) && processedFiles == old(processedFiles) && progressLog == old(progressLog)
      ensures old(processedFiles) <= processedFiles
      ensures SelectFile(file).Accepted? && !old(isModelLoaded) ==>
        status == WaitingMessage && isProcessing == old(isProcessing) && progress == old(progress) &&
        processedFiles == old(processedFiles) && progressLog == old(progressLog)
      ensures SelectFile(file).Accepted? && old(isModelLoaded) ==>
        !isProcessing && progressLog == old(progressLog) + ProgressTrace(fault) &&
        progressLog != [] && progress == progressLog[|progressLog| - 1]
      ensures SelectFile(file).Accepted? && old(isModelLoaded) && fault.None? ==>
        status == DoneMessage && processedFiles == old(processedFiles) + [file.value.name]
      ensures SelectFile(file).Accepted? && old(isModelLoaded) && fault.Some? ==>
        status == ErrorStatus(message) && processedFiles == old(processedFiles)
      ensures isModelLoaded == old(isModelLoaded)
    {
      var selection := SelectFile(file);
      match selection
      case NothingSelected =>
      case Rejected(s) => status := s;
      case Accepted(f) => HandleFileUpload(f, fault, message);
    }
  }
}

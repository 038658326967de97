/** The interface strings of the dashboard in Arabic and English, and the lookup that
    resolves a key in the active language (src/lib/i18n.ts). */
module I18n {

  /** The two interface languages; `Code` gives the code the source uses for each. */
  datatype Language = Ar | En

  function Code(lang: Language): (c: string)
    ensures c == "ar" <==> lang == Ar
    ensures c == "en" <==> lang == En
  {
    match lang
    case Ar => "ar"
    case En => "en"
  }

  /** The closed set of translation keys: the property names of the English table. */
  datatype Key =
      AppName
    | AppTagline
    | Dashboard
    | Analyze
    | Reports
    | Assistant
    | Settings
    | TotalDetections
    | CriticalAlerts
    | MeanTimeToDetect
    | MeanTimeToRespond
    | RecentDetections
    | ViewAll
    | UploadImage
    | UploadVideo
    | DragDrop
    | Or
    | Browse
    | Analyzing
    | NoDetection
    | DetectionFound
    | Soldiers
    | Confidence
    | ReportId
    | Timestamp
    | Location
    | Severity
    | Status
    | SoldierCount
    | Environment
    | Equipment
    | Camouflage
    | High
    | Medium
    | Low
    | New
    | InProgress
    | Closed
    | Last24h
    | Last7d
    | Last30d
    | AllTime
    | AskMoraqib
    | TypeQuestion
    | Send
    | ExampleQueries
    | SystemStatus
    | Online
    | Offline
    | ModelLoaded
    | AiAvailable
    | Download
    | Export
    | Refresh
    | Filter
    | Search
    | ProcessingImage
    | ProcessingVideo
    | AnalysisComplete
    | ErrorOccurred
    | NoData

  /** The key as its property name in the source tables; the lookup falls back to it. */
  function Name(k: Key): string {
    match k
    case AppName => "appName"
    case AppTagline => "appTagline"
    case Dashboard => "dashboard"
    case Analyze => "analyze"
    case Reports => "reports"
    case Assistant => "assistant"
    case Settings => "settings"
    case TotalDetections => "totalDetections"
    case CriticalAlerts => "criticalAlerts"
    case MeanTimeToDetect => "meanTimeToDetect"
    case MeanTimeToRespond => "meanTimeToRespond"
    case RecentDetections => "recentDetections"
    case ViewAll => "viewAll"
    case UploadImage => "uploadImage"
    case UploadVideo => "uploadVideo"
    case DragDrop => "dragDrop"
    case Or => "or"
    case Browse => "browse"
    case Analyzing => "analyzing"
    case NoDetection => "noDetection"
    case DetectionFound => "detectionFound"
    case Soldiers => "soldiers"
    case Confidence => "confidence"
    case ReportId => "reportId"
    case Timestamp => "timestamp"
    case Location => "location"
    case Severity => "severity"
    case Status => "status"
    case SoldierCount => "soldierCount"
    case Environment => "environment"
    case Equipment => "equipment"
    case Camouflage => "camouflage"
    case High => "high"
    case Medium => "medium"
    case Low => "low"
    case New => "new"
    case InProgress => "inProgress"
    case Closed => "closed"
    case Last24h => "last24h"
    case Last7d => "last7d"
    case Last30d => "last30d"
    case AllTime => "allTime"
    case AskMoraqib => "askMoraqib"
    case TypeQuestion => "typeQuestion"
    case Send => "send"
    case ExampleQueries => "exampleQueries"
    case SystemStatus => "systemStatus"
    case Online => "online"
    case Offline => "offline"
    case ModelLoaded => "modelLoaded"
    case AiAvailable => "aiAvailable"
    case Download => "download"
    case Export => "export"
    case Refresh => "refresh"
    case Filter => "filter"
    case Search => "search"
    case ProcessingImage => "processingImage"
    case ProcessingVideo => "processingVideo"
    case AnalysisComplete => "analysisComplete"
    case ErrorOccurred => "errorOccurred"
    case NoData => "noData"
  }

  /** The Arabic table (`translations.ar`), entry for entry as in the source. */
  function ArText(k: Key): string {
    match k
    case AppName => "مرقاب"
    case AppTagline => "نظام كشف التمويه العسكري"
    case Dashboard => "لوحة التحكم"
    case Analyze => "تحليل"
    case Reports => "التقارير"
    case Assistant => "المساعد"
    case Settings => "الإعدادات"
    case TotalDetections => "إجمالي الاكتشافات"
    case CriticalAlerts => "التنبيهات الحرجة"
    case MeanTimeToDetect => "متوسط وقت الكشف"
    case MeanTimeToRespond => "متوسط وقت الاستجابة"
    case RecentDetections => "الاكتشافات الأخيرة"
    case ViewAll => "عرض الكل"
    case UploadImage => "رفع صورة"
    case UploadVideo => "رفع فيديو"
    case DragDrop => "اسحب وأفلت الملفات هنا"
    case Or => "أو"
    case Browse => "تصفح"
    case Analyzing => "جاري التحليل..."
    case NoDetection => "لم يتم اكتشاف أي تمويه"
    case DetectionFound => "تم الكشف عن تمويه"
    case Soldiers => "جنود"
    case Confidence => "الثقة"
    case ReportId => "رقم التقرير"
    case Timestamp => "الوقت"
    case Location => "الموقع"
    case Severity => "الخطورة"
    case Status => "الحالة"
    case SoldierCount => "عدد الجنود"
    case Environment => "البيئة"
    case Equipment => "المعدات"
    case Camouflage => "نوع التمويه"
    case High => "عالي"
    case Medium => "متوسط"
    case Low => "منخفض"
    case New => "جديد"
    case InProgress => "قيد المعالجة"
    case Closed => "مغلق"
    case Last24h => "آخر 24 ساعة"
    case Last7d => "آخر 7 أيام"
    case Last30d => "آخر 30 يوم"
    case AllTime => "كل الوقت"
    case AskMoraqib => "اسأل مراقب"
    case TypeQuestion => "اكتب سؤالك هنا..."
    case Send => "إرسال"
    case ExampleQueries => "أمثلة على الأسئلة"
    case SystemStatus => "حالة النظام"
    case Online => "متصل"
    case Offline => "غير متصل"
    case ModelLoaded => "النموذج محمّل"
    case AiAvailable => "الذكاء الاصطناعي متاح"
    case Download => "تحميل"
    case Export => "تصدير"
    case Refresh => "تحديث"
    case Filter => "تصفية"
    case Search => "بحث"
    case ProcessingImage => "جاري معالجة الصورة..."
    case ProcessingVideo => "جاري معالجة الفيديو..."
    case AnalysisComplete => "اكتمل التحليل"
    case ErrorOccurred => "حدث خطأ"
    case NoData => "لا توجد بيانات"
  }

  /** The English table (`translations.en`), entry for entry as in the source. */
  function EnText(k: Key): string {
    match k
    case AppName => "MIRQAB"
    case AppTagline => "Military Camouflage Detection System"
    case Dashboard => "Dashboard"
    case Analyze => "Analyze"
    case Reports => "Reports"
    case Assistant => "Assistant"
    case Settings => "Settings"
    case TotalDetections => "Total Detections"
    case CriticalAlerts => "Critical Alerts"
    case MeanTimeToDetect => "Mean Time to Detect"
    case MeanTimeToRespond => "Mean Time to Respond"
    case RecentDetections => "Recent Detections"
    case ViewAll => "View All"
    case UploadImage => "Upload Image"
    case UploadVideo => "Upload Video"
    case DragDrop => "Drag & drop files here"
    case Or => "or"
    case Browse => "Browse"
    case Analyzing => "Analyzing..."
    case NoDetection => "No camouflage detected"
    case DetectionFound => "Camouflage Detected"
    case Soldiers => "soldiers"
    case Confidence => "Confidence"
    case ReportId => "Report ID"
    case Timestamp => "Timestamp"
    case Location => "Location"
    case Severity => "Severity"
    case Status => "Status"
    case SoldierCount => "Soldier Count"
    case Environment => "Environment"
    case Equipment => "Equipment"
    case Camouflage => "Camouflage Type"
    case High => "High"
    case Medium => "Medium"
    case Low => "Low"
    case New => "New"
    case InProgress => "In Progress"
    case Closed => "Closed"
    case Last24h => "Last 24 Hours"
    case Last7d => "Last 7 Days"
    case Last30d => "Last 30 Days"
    case AllTime => "All Time"
    case AskMoraqib => "Ask Moraqib"
    case TypeQuestion => "Type your question here..."
    case Send => "Send"
    case ExampleQueries => "Example Queries"
    case SystemStatus => "System Status"
    case Online => "Online"
    case Offline => "Offline"
    case ModelLoaded => "Model Loaded"
    case AiAvailable => "AI Available"
    case Download => "Download"
    case Export => "Export"
    case Refresh => "Refresh"
    case Filter => "Filter"
    case Search => "Search"
    case ProcessingImage => "Processing image..."
    case ProcessingVideo => "Processing video..."
    case AnalysisComplete => "Analysis Complete"
    case ErrorOccurred => "Error Occurred"
    case NoData => "No Data"
  }

  /** `translations[lang][key]`. Both tables are total over the one key type, so a key that
      one table lacked would be a missing case of its `match`, rejected when it is built. */
  function Entry(lang: Language, k: Key): string {
    match lang
    case Ar => ArText(k)
    case En => EnText(k)
  }

  /** The exported `t(key, lang)`, i.e. `translations[lang][key] || key`: an empty entry is
      falsy and falls back to the key's own name; any other entry is returned as it is. */
  function Translate(k: Key, lang: Language): (r: string)
    ensures Entry(lang, k) != "" ==> r == Entry(lang, k)
    ensures Entry(lang, k) == "" ==> r == Name(k)
    ensures r != ""
  {
    var entry := Entry(lang, k);
    if entry != "" then entry else Name(k)
  }

  /** No entry of the Arabic table is the empty string: checked key by key. */
  lemma {:induction false} ArEntriesAreNonEmpty(k: Key)
    ensures ArText(k) != ""
  {
    match k
    case AppName =>
    case AppTagline =>
    case Dashboard =>
    case Analyze =>
    case Reports =>
    case Assistant =>
    case Settings =>
    case TotalDetections =>
    case CriticalAlerts =>
    case MeanTimeToDetect =>
    case MeanTimeToRespond =>
    case RecentDetections =>
    case ViewAll =>
    case UploadImage =>
    case UploadVideo =>
    case DragDrop =>
    case Or =>
    case Browse =>
    case Analyzing =>
    case NoDetection =>
    case DetectionFound =>
    case Soldiers =>
    case Confidence =>
    case ReportId =>
    case Timestamp =>
    case Location =>
    case Severity =>
    case Status =>
    case SoldierCount =>
    case Environment =>
    case Equipment =>
    case Camouflage =>
    case High =>
    case Medium =>
    case Low =>
    case New =>
    case InProgress =>
    case Closed =>
    case Last24h =>
    case Last7d =>
    case Last30d =>
    case AllTime =>
    case AskMoraqib =>
    case TypeQuestion =>
    case Send =>
    case ExampleQueries =>
    case SystemStatus =>
    case Online =>
    case Offline =>
    case ModelLoaded =>
    case AiAvailable =>
    case Download =>
    case Export =>
    case Refresh =>
    case Filter =>
    case Search =>
    case ProcessingImage =>
    case ProcessingVideo =>
    case AnalysisComplete =>
    case ErrorOccurred =>
    case NoData =>
  }

  /** No entry of the English table is the empty string: checked key by key. */
  lemma {:induction false} EnEntriesAreNonEmpty(k: Key)
    ensures EnText(k) != ""
  {
    match k
    case AppName =>
    case AppTagline =>
    case Dashboard =>
    case Analyze =>
    case Reports =>
    case Assistant =>
    case Settings =>
    case TotalDetections =>
    case CriticalAlerts =>
    case MeanTimeToDetect =>
    case MeanTimeToRespond =>
    case RecentDetections =>
    case ViewAll =>
    case UploadImage =>
    case UploadVideo =>
    case DragDrop =>
    case Or =>
    case Browse =>
    case Analyzing =>
    case NoDetection =>
    case DetectionFound =>
    case Soldiers =>
    case Confidence =>
    case ReportId =>
    case Timestamp =>
    case Location =>
    case Severity =>
    case Status =>
    case SoldierCount =>
    case Environment =>
    case Equipment =>
    case Camouflage =>
    case High =>
    case Medium =>
    case Low =>
    case New =>
    case InProgress =>
    case Closed =>
    case Last24h =>
    case Last7d =>
    case Last30d =>
    case AllTime =>
    case AskMoraqib =>
    case TypeQuestion =>
    case Send =>
    case ExampleQueries =>
    case SystemStatus =>
    case Online =>
    case Offline =>
    case ModelLoaded =>
    case AiAvailable =>
    case Download =>
    case Export =>
    case Refresh =>
    case Filter =>
    case Search =>
    case ProcessingImage =>
    case ProcessingVideo =>
    case AnalysisComplete =>
    case ErrorOccurred =>
    case NoData =>
  }

  /** No entry of either table is the empty string. */
  lemma EntriesAreNonEmpty(lang: Language, k: Key)
    ensures Entry(lang, k) != ""
  {
    match lang
    case Ar => ArEntriesAreNonEmpty(k);
    case En => EnEntriesAreNonEmpty(k);
  }

  lemma TranslateIsEntry(k: Key, lang: Language)
    ensures Translate(k, lang) == Entry(lang, k)
  {
    EntriesAreNonEmpty(lang, k);
  }
}

/**
 * The canned replies the backend falls back to when no AI provider
 * answers: the first entry whose key occurs in the lower-cased dream text,
 * or a generic default.
 */
module DemoData {
  import opened Wrappers
  import opened Text

  datatype DemoSymbol = DemoSymbol(name: string, meaning: string)

  datatype DemoReply = DemoReply(interpretation: string, energy: int, symbols: seq<DemoSymbol>)

  /** One entry of `demoInterpretations`: the key searched for and its reply. */
  datatype DemoEntry = DemoEntry(dreamText: string, reply: DemoReply)

  const DenizText: string :=
    "Bu rüyanız duygusal dünyaya, bilinçaltına ve yaşamın akışına işaret ediyor. Deniz genellikle duygusal derinliği, bilinmeyen korkuları ya da özgürlük arayışını simgeler.\n" +
    "\n" +
    "**Deniz Sembolü:** Sakin bir deniz görüyorsanız, iç huzurunuzu ve duygusal dengenizi yansıtır. Dalgalı bir deniz ise yaşadığınız duygusal çalkantılara işaret edebilir.\n" +
    "\n" +
    "**Psikolojik Yorum:** Carl Jung'a göre su, bilinçaltının sembolüdür. Deniz rüyaları genellikle iç dünyanıza yolculuk yapma, kendinizi keşfetme arzunuzu gösterir.\n" +
    "\n" +
    "**Tavsiye:** Duygularınıza kulak verin ve onları bastırmak yerine ifade etmeyi deneyin."

  const UcmakText: string :=
    "Uçma rüyaları genellikle özgürlük, başarı ve sınırları aşma arzusunu simgeler. Bu, kendinizi güçlü ve özgür hissettiğiniz bir dönemde olduğunuzu gösterebilir.\n" +
    "\n" +
    "**Uçuş Deneyimi:** Kolay ve keyifli uçuyorsanız, hayatta kontrolün sizde olduğunu ve hedeflerinize ulaşabileceğinizi hissediyorsunuz. Zor uçuyorsanız, bazı engellerle karşılaştığınızı gösterebilir.\n" +
    "\n" +
    "**Psikolojik Yorum:** Freud'a göre uçma rüyaları cinsel enerjiye, Jung'a göre ise kişisel gelişime ve potansiyele işaret eder.\n" +
    "\n" +
    "**Tavsiye:** Hedeflerinize odaklanın ve korkularınızı aşmak için cesaret gösterin."

  const YilanText: string :=
    "Yılan rüyaları dönüşüm, iyileşme veya tehdit unsurlarını simgeler. Çok katmanlı bir semboldür ve kültüre göre anlamı değişir.\n" +
    "\n" +
    "**Yılan Sembolü:** Yılan deri değiştirir, bu nedenle dönüşüm ve yeniden doğuş sembolüdür. Aynı zamanda gizli düşmanlar, tehlikeler ya da bastırılmış korkular anlamına da gelebilir.\n" +
    "\n" +
    "**Psikolojik Yorum:** Jung'a göre yılan, kolektif bilinçaltının bir arketipidir ve bilgeliği simgeler. Freud ise yılanı cinsel enerji ile ilişkilendirir.\n" +
    "\n" +
    "**Tavsiye:** Hayatınızda hangi değişimlerin zamanının geldiğini düşünün ve bu değişimlere açık olun."

  const DefaultText: string :=
    "🎭 **Demo Mod Aktif**\n" +
    "\n" +
    "Bu rüyanız ilginç semboller içeriyor. Gerçek AI yorumlama için OpenAI API kredisi gereklidir.\n" +
    "\n" +
    "**Genel Yorum:** Rüyalarınız bilinçaltınızın mesajlarıdır. Her sembol, duygu ve olay sizin iç dünyanızdan bir yansımadır.\n" +
    "\n" +
    "**Rüya Öğeleri:** Rüyanızda geçen kişiler, yerler ve nesneler genellikle sizin yaşam deneyimleriniz ve duygularınızla bağlantılıdır.\n" +
    "\n" +
    "**Not:** Gerçek AI yorumu için OpenAI hesabınıza kredi eklemeniz gerekmektedir. Şu anda demo modda çalışıyorsunuz."

  const DemoInterpretations: seq<DemoEntry> := [
    DemoEntry("deniz", DemoReply(DenizText, 75, [DemoSymbol("Deniz", "Duygusal dünya, bilinçaltı, özgürlük")])),
    DemoEntry("uçmak", DemoReply(UcmakText, 92, [DemoSymbol("Uçmak", "Özgürlük, başarı, sınırları aşma")])),
    DemoEntry("yılan", DemoReply(YilanText, 58, [DemoSymbol("Yılan", "Dönüşüm, iyileşme, tehdit")]))
  ]

  const DefaultReply: DemoReply := DemoReply(DefaultText, 65, [DemoSymbol("Demo Sembol", "Bu bir demo yorumdur")])

  /** The first entry at or after `i` whose key occurs in `lowerText`. */
  function FirstMatch(entries: seq<DemoEntry>, lowerText: string, i: nat): (r: Option<nat>)
    requires i <= |entries|
    ensures r.Some? ==> i <= r.value < |entries| && Contains(lowerText, entries[r.value].dreamText)
    ensures r.Some? ==> forall j :: i <= j < r.value ==> !Contains(lowerText, entries[j].dreamText)
    ensures r.None? ==> forall j :: i <= j < |entries| ==> !Contains(lowerText, entries[j].dreamText)
    decreases |entries| - i
  {
    if i == |entries| then None
    else if Contains(lowerText, entries[i].dreamText) then Some(i)
    else FirstMatch(entries, lowerText, i + 1)
  }

  /** A table of canned replies: the keyed entries and the default. */
  datatype DemoSet = DemoSet(entries: seq<DemoEntry>, fallback: DemoReply)

  /** The table the backend ships with. */
  const Shipped: DemoSet := DemoSet(DemoInterpretations, DefaultReply)

  /** A reply the response shaping accepts: one symbol with a meaning and an energy on the 0..100 scale. */
  predicate ReplyShaped(r: DemoReply) {
    |r.symbols| == 1 && r.symbols[0].meaning != "" && 0 <= r.energy <= 100
  }

  predicate Shaped(demo: DemoSet) {
    ReplyShaped(demo.fallback) && forall i :: 0 <= i < |demo.entries| ==> ReplyShaped(demo.entries[i].reply)
  }

  /** The replies of a table are told apart by their energies. */
  predicate DistinctEnergies(demo: DemoSet) {
    (forall a, b :: 0 <= a < b < |demo.entries| ==> demo.entries[a].reply.energy != demo.entries[b].reply.energy) &&
    (forall a :: 0 <= a < |demo.entries| ==> demo.entries[a].reply.energy != demo.fallback.energy)
  }

  /**
   * `getDemoInterpretation`: the reply of the first entry whose key occurs
   * in the lower-cased text, else the default.
   */
  function GetDemoInterpretation(demo: DemoSet, dreamText: string): (r: DemoReply)
    ensures r == demo.fallback || exists i :: 0 <= i < |demo.entries| && r == demo.entries[i].reply
    ensures (forall j :: 0 <= j < |demo.entries| ==> !Contains(Lower(dreamText), demo.entries[j].dreamText)) ==>
      r == demo.fallback
    ensures Shaped(demo) ==> ReplyShaped(r)
  {
    match FirstMatch(demo.entries, Lower(dreamText), 0)
    case Some(i) => demo.entries[i].reply
    case None => demo.fallback
  }

  /** When the replies differ, the reply of entry `i` is chosen exactly when its key is the first one found. */
  lemma DemoChoosesFirstMatch(demo: DemoSet, dreamText: string, i: int)
    requires DistinctEnergies(demo)
    requires 0 <= i < |demo.entries|
    ensures GetDemoInterpretation(demo, dreamText) == demo.entries[i].reply <==>
      Contains(Lower(dreamText), demo.entries[i].dreamText) &&
      forall j :: 0 <= j < i ==> !Contains(Lower(dreamText), demo.entries[j].dreamText)
  {
    var f := FirstMatch(demo.entries, Lower(dreamText), 0);
    if f.Some? && f.value != i {
      if f.value < i {
        assert demo.entries[f.value].reply.energy != demo.entries[i].reply.energy;
      } else {
        assert demo.entries[i].reply.energy != demo.entries[f.value].reply.energy;
      }
    }
  }

  /** The shipped replies are well shaped. */
  lemma ShippedShaped()
    ensures Shaped(Shipped)
  {
  }

  /** The shipped replies are told apart by their energies. */
  lemma ShippedDistinct()
    ensures DistinctEnergies(Shipped)
  {
    ShippedKeys();
  }

  /** The shipped keys in order, with the energies 75, 92, 58 and the default 65. */
  lemma ShippedKeys()
    ensures |Shipped.entries| == 3
    ensures Shipped.entries[0].dreamText == "deniz" && Shipped.entries[0].reply.energy == 75
    ensures Shipped.entries[1].dreamText == "uçmak" && Shipped.entries[1].reply.energy == 92
    ensures Shipped.entries[2].dreamText == "yılan" && Shipped.entries[2].reply.energy == 58
    ensures Shipped.fallback.energy == 65 && Shipped.fallback.symbols == [DemoSymbol("Demo Sembol", "Bu bir demo yorumdur")]
  {
  }

  /** From the shipped table every text gets one of the four canned energies. */
  lemma ShippedEnergy(dreamText: string)
    ensures GetDemoInterpretation(Shipped, dreamText).energy in {75, 92, 58, 65}
    ensures ReplyShaped(GetDemoInterpretation(Shipped, dreamText))
  {
    ShippedShaped();
    ShippedKeys();
  }

  /** A dream mentioning the sea gets the sea reply, whatever else it mentions. */
  lemma DemoSeaFirst(dreamText: string)
    requires Contains(Lower(dreamText), "deniz")
    ensures GetDemoInterpretation(Shipped, dreamText) == Shipped.entries[0].reply
    ensures GetDemoInterpretation(Shipped, dreamText).energy == 75
  {
    ShippedKeys();
  }

  /** With none of the shipped keys in the text the default reply is returned. */
  lemma DemoDefault(dreamText: string)
    requires !Contains(Lower(dreamText), "deniz") && !Contains(Lower(dreamText), "uçmak")
    requires !Contains(Lower(dreamText), "yılan")
    ensures GetDemoInterpretation(Shipped, dreamText) == Shipped.fallback
    ensures GetDemoInterpretation(Shipped, dreamText).energy == 65
  {
    ShippedKeys();
  }
}

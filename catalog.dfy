/** The static reference data the edge function and both front ends share: the
    ten AI presets, the instrument list, the five mock analyses and the loading
    messages. Only the fields that some computation reads are kept. */
module Catalog {
  import opened Wrappers

  /** An AI preset: its id, its display name and its specialty. */
  datatype AIOption = AIOption(id: string, name: string, specialty: string)

  const AIOptions: seq<AIOption> := [
    AIOption("tradingview-ai", "TradingView AI Pro", "Padrões de candlestick"),
    AIOption("chartgpt", "ChartGPT Analysis", "Análise fundamentalista"),
    AIOption("binary-vision", "Binary Vision AI", "Opções binárias"),
    AIOption("trendspider", "TrendSpider Bot", "Linhas de tendência"),
    AIOption("pattern-ai", "Chart Pattern AI", "Padrões gráficos"),
    AIOption("signal-master", "Signal Master Pro", "Sinais de entrada"),
    AIOption("technical-ai", "Technical Analysis AI", "Indicadores técnicos"),
    AIOption("market-genius", "Market Genius Bot", "Análise de mercado"),
    AIOption("binary-predictor", "Binary Predictor AI", "Predições binárias"),
    AIOption("advanced-chart", "Advanced Chart AI", "Análise multi-timeframe")
  ]

  const Assets: seq<string> := [
    "EUR/USD", "GBP/USD", "USD/JPY", "USD/CHF", "AUD/USD", "USD/CAD",
    "NZD/USD", "EUR/GBP", "EUR/JPY", "GBP/JPY", "BITCOIN", "ETHEREUM",
    "GOLD", "SILVER", "OIL", "NASDAQ", "S&P500", "DOW JONES"
  ]

  /** One canned analysis; its fixed entry-time text is never displayed and is
      not kept. */
  datatype MockTemplate = MockTemplate(pattern: string, direction: string, confidence: int, reasoning: string)

  const MockTemplates: seq<MockTemplate> := [
    MockTemplate("Hammer", "CALL", 92,
      "Padrão de martelo formado no suporte, indicando reversão de alta. Volume confirmatório presente com rompimento da média móvel de 20 períodos. RSI saindo da zona de sobrevenda, confirmando força compradora."),
    MockTemplate("Shooting Star", "PUT", 87,
      "Estrela cadente na resistência com divergência no RSI, forte sinal de reversão baixista. Rejeitada na região de Fibonacci 61.8%, com volume aumentando nas vendas."),
    MockTemplate("Doji", "PUT", 89,
      "Doji gravestone na zona de resistência, mercado indeciso com viés baixista. Confluência com linha de tendência descendente e topo duplo formado."),
    MockTemplate("Engulfing Bullish", "CALL", 94,
      "Padrão de engolfo de alta no suporte dinâmico, indicando forte pressão compradora. Breakout confirmado com aumento significativo do volume."),
    MockTemplate("Three Black Crows", "PUT", 91,
      "Formação de três corvos pretos após topo de alta, sinal de reversão baixista confirmado. MACD com divergência negativa e Estocástico em zona de sobrevenda.")
  ]

  /** The label shown as "AI used" for an automatic analysis. */
  const AutomaticLabel := "Análise Automática (Todas as IAs)"

  /** The status lines shown, in order, while an analysis is simulated. */
  const LoadingMessages: seq<string> := [
    "Processando imagem com IA...",
    "Identificando padrões de candlestick...",
    "Analisando suporte e resistência...",
    "Calculando indicadores técnicos...",
    "Detectando sinais de entrada...",
    "Gerando previsão final..."
  ]

  /** The index of the first option at or after `from` that carries `id`. */
  function IndexById(options: seq<AIOption>, id: string, from: nat): (r: Option<nat>)
    ensures r.Some? ==> from <= r.value < |options| && options[r.value].id == id
    ensures r.Some? ==> forall j :: from <= j < r.value ==> options[j].id != id
    ensures r.None? ==> forall j :: from <= j < |options| ==> options[j].id != id
    decreases |options| - from
  {
    if from >= |options| then None
    else if options[from].id == id then Some(from)
    else IndexById(options, id, from + 1)
  }

  /** `options.find(ai => ai.id === id)`: the first option carrying `id`. */
  function FindById(options: seq<AIOption>, id: string): Option<AIOption> {
    match IndexById(options, id, 0)
    case None => None
    case Some(i) => Some(options[i])
  }

  /** No two presets share an id. */
  lemma {:induction false} IdsDistinct()
    ensures forall i, j :: 0 <= i < j < |AIOptions| ==> AIOptions[i].id != AIOptions[j].id
  {
  }

  /** Looking up a preset's own id finds that preset. */
  lemma FindByIdFindsPreset(i: nat)
    requires i < |AIOptions|
    ensures FindById(AIOptions, AIOptions[i].id) == Some(AIOptions[i])
  {
    IdsDistinct();
  }

  /** Every preset has a non-empty name, so `name || "N/A"` is the name. */
  lemma NamesNonEmpty()
    ensures forall i :: 0 <= i < |AIOptions| ==> AIOptions[i].name != ""
  {
  }
}
